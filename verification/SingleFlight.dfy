/**
  Request deduplication (singleflight.rs:38-142): leaders, followers, cancellation, and the cleanup
  that runs later when the registry was locked while a leader was dropped.

  The registry's mutex is held for single steps only; that `try_lock` can fail is a choice of the
  environment. A channel is open while its leader or its registry entry holds a sender.
*/
module SingleFlight {
  import opened Common

  type Key = string
  type Client = nat

  /** Where the `FlightWaiter` of a generation is. `Woken` and `Unlisted` are inside `complete`. */
  datatype Stage = Running | Woken | Unlisted | Cleaning | Ended

  /** `cancelled` and `completed` are history: its entry was taken by a cancel; it has sent its message. */
  datatype Leader = Leader(key: Key, stage: Stage, cancelled: bool, completed: bool)

  /** A follower's receiver: its channel, and whether a message has been put in it. */
  datatype Follower = Follower(gen: nat, message: bool)

  datatype State = State(registry: map<Key, nat>, next: nat, leaders: map<nat, Leader>, followers: map<Client, Follower>)

  const INITIAL := State(map[], 1, map[], map[])

  datatype Action =
    | Acquire(client: Client, key: Key)
    | Send(gen: nat)
    | Unlist(gen: nat)
    | Dropped(gen: nat, locked: bool)
    | Clean(gen: nat)
    | Cancel(key: Key)

  // ---------- steps ----------

  /** The registry without the entry of this generation; a newer flight's entry stays. */
  function RemoveIfMine(registry: map<Key, nat>, key: Key, gen: nat): (r: map<Key, nat>)
    ensures forall k :: k in r <==> k in registry && !(k == key && registry[k] == gen)
    ensures forall k :: k in r ==> r[k] == registry[k]
  {
    if key in registry && registry[key] == gen then registry - {key} else registry
  }

  /** The senders of a generation: its leader's, until the `FlightWaiter` is dropped, and the registry's. */
  predicate Open(s: State, gen: nat) {
    (gen in s.leaders && (s.leaders[gen].stage.Running? || s.leaders[gen].stage.Woken? || s.leaders[gen].stage.Unlisted?))
    || (exists k :: k in s.registry && s.registry[k] == gen)
  }

  function SetStage(s: State, gen: nat, stage: Stage): State
    requires gen in s.leaders
  {
    s.(leaders := s.leaders[gen := s.leaders[gen].(stage := stage)])
  }

  /** `complete` puts its message into every channel of its generation. */
  function Announced(s: State, gen: nat): State
    requires gen in s.leaders
  {
    s.(leaders := s.leaders[gen := s.leaders[gen].(stage := Woken, completed := true)],
       followers := map c | c in s.followers :: s.followers[c].(message := s.followers[c].message || s.followers[c].gen == gen))
  }

  function Step(s: State, a: Action): Option<State> {
    match a
    case Acquire(client, key) =>
      if client in s.followers then None
      else if key in s.registry
      then Some(s.(followers := s.followers[client := Follower(s.registry[key], false)]))
      else Some(s.(registry := s.registry[key := s.next], next := s.next + 1,
                   leaders := s.leaders[s.next := Leader(key, Running, false, false)]))
    case Send(gen) =>
      if gen in s.leaders && s.leaders[gen].stage.Running?
      then Some(Announced(s, gen))
      else None
    case Unlist(gen) =>
      if gen in s.leaders && s.leaders[gen].stage.Woken?
      then Some(SetStage(s, gen, Unlisted).(registry := RemoveIfMine(s.registry, s.leaders[gen].key, gen)))
      else None
    case Dropped(gen, locked) =>
      if gen in s.leaders && (s.leaders[gen].stage.Running? || s.leaders[gen].stage.Woken? || s.leaders[gen].stage.Unlisted?)
      then if locked then Some(SetStage(s, gen, Cleaning))
           else Some(SetStage(s, gen, Ended).(registry := RemoveIfMine(s.registry, s.leaders[gen].key, gen)))
      else None
    case Clean(gen) =>
      if gen in s.leaders && s.leaders[gen].stage.Cleaning?
      then Some(SetStage(s, gen, Ended).(registry := RemoveIfMine(s.registry, s.leaders[gen].key, gen)))
      else None
    case Cancel(key) =>
      if key in s.registry && s.registry[key] in s.leaders
      then var gen := s.registry[key];
           Some(s.(registry := s.registry - {key}, leaders := s.leaders[gen := s.leaders[gen].(cancelled := true)]))
      else Some(s)
  }

  function Run(s: State, actions: seq<Action>): Option<State>
    decreases |actions|
  {
    if actions == [] then Some(s)
    else match Step(s, actions[0])
      case None => None
      case Some(s') => Run(s', actions[1..])
  }

  // ---------- the invariant ----------

  /** A leader that was not cancelled and has not yet taken its entry out. */
  predicate Working(l: Leader) {
    !l.cancelled && (l.stage.Running? || l.stage.Woken?)
  }

  /** The leaders whose entry can be in the registry. */
  predicate Listed(l: Leader) {
    !l.cancelled && (l.stage.Running? || l.stage.Woken? || l.stage.Cleaning?)
  }

  ghost predicate Inv(s: State) {
    && (forall g :: g in s.leaders ==> g < s.next)
    && (forall k :: k in s.registry ==>
          var g := s.registry[k];
          g in s.leaders && s.leaders[g].key == k && Listed(s.leaders[g]))
    && (forall g :: g in s.leaders && Working(s.leaders[g]) ==> s.leaders[g].key in s.registry && s.registry[s.leaders[g].key] == g)
    && (forall c :: c in s.followers ==> s.followers[c].gen in s.leaders)
    && (forall c :: c in s.followers && s.followers[c].message ==> s.leaders[s.followers[c].gen].completed)
    && (forall g :: g in s.leaders && s.leaders[g].stage.Running? ==> !s.leaders[g].completed)
    && (forall g :: g in s.leaders && (s.leaders[g].stage.Woken? || s.leaders[g].stage.Unlisted?) ==> s.leaders[g].completed)
  }

  lemma RemovalKeeps(s: State, gen: nat, stage: Stage)
    requires Inv(s) && gen in s.leaders && (stage.Ended? || (stage.Unlisted? && s.leaders[gen].completed))
    ensures Inv(SetStage(s, gen, stage).(registry := RemoveIfMine(s.registry, s.leaders[gen].key, gen)))
  {
  }

  lemma AcquireKeeps(s: State, client: Client, key: Key)
    requires Inv(s) && Step(s, Acquire(client, key)).Some?
    ensures Inv(Step(s, Acquire(client, key)).value)
  {
  }

  lemma AnnouncingKeeps(s: State, gen: nat)
    requires Inv(s) && gen in s.leaders && s.leaders[gen].stage.Running?
    ensures Inv(Announced(s, gen))
  {
  }

  lemma StepKeeps(s: State, a: Action)
    requires Inv(s) && Step(s, a).Some?
    ensures Inv(Step(s, a).value)
  {
    match a {
      case Acquire(client, key) => AcquireKeeps(s, client, key);
      case Send(gen) => AnnouncingKeeps(s, gen);
      case Unlist(gen) => RemovalKeeps(s, gen, Unlisted);
      case Dropped(gen, locked) => if !locked { RemovalKeeps(s, gen, Ended); }
      case Clean(gen) => RemovalKeeps(s, gen, Ended);
      case _ =>
    }
  }

  lemma {:induction false} RunKeeps(s: State, actions: seq<Action>)
    requires Inv(s) && Run(s, actions).Some?
    ensures Inv(Run(s, actions).value)
    decreases |actions|
  {
    if actions != [] {
      StepKeeps(s, actions[0]);
      RunKeeps(Step(s, actions[0]).value, actions[1..]);
    }
  }

  ghost predicate Reachable(s: State) {
    exists actions :: Run(INITIAL, actions) == Some(s)
  }

  lemma ReachableKeeps(s: State)
    requires Reachable(s)
    ensures Inv(s)
  {
    var actions :| Run(INITIAL, actions) == Some(s);
    RunKeeps(INITIAL, actions);
  }

  // ---------- what it promises ----------

  /** A leader that is still at work and was not cancelled. */
  predicate Leads(s: State, gen: nat, key: Key) {
    gen in s.leaders && s.leaders[gen].key == key && Working(s.leaders[gen])
  }

  lemma OneLeaderPerKey(s: State, g: nat, g': nat, key: Key)
    requires Reachable(s) && Leads(s, g, key) && Leads(s, g', key)
    ensures g == g'
  {
    ReachableKeeps(s);
  }

  /** Generations are never handed out twice. */
  lemma GenerationsAreNew(s: State, client: Client, key: Key)
    requires Reachable(s) && client !in s.followers && key !in s.registry
    ensures s.next !in s.leaders
    ensures var s' := Step(s, Acquire(client, key));
            s'.Some? && Leads(s'.value, s.next, key) && s'.value.leaders - {s.next} == s.leaders
  {
    ReachableKeeps(s);
  }

  /** An entry leaves the registry only through its own leader or a cancel of its key. */
  lemma NewerFlightsSurvive(s: State, a: Action, key: Key)
    requires Reachable(s) && Step(s, a).Some? && key in s.registry
    requires a != Cancel(key)
    requires a.Unlist? || a.Dropped? || a.Clean? ==> a.gen != s.registry[key]
    ensures key in Step(s, a).value.registry && Step(s, a).value.registry[key] == s.registry[key]
  {
    ReachableKeeps(s);
  }

  /** All leaders are gone and no cleanup is pending. */
  ghost predicate AtRest(s: State) {
    forall g :: g in s.leaders ==> s.leaders[g].stage.Ended?
  }

  /** Nothing leaks and nobody waits for ever: the registry is empty, and every follower's channel is closed. */
  lemma RestIsClean(s: State)
    requires Reachable(s) && AtRest(s)
    ensures s.registry == map[]
    ensures forall c :: c in s.followers ==> !Open(s, s.followers[c].gen)
  {
    ReachableKeeps(s);
    assert forall k :: k !in s.registry;
  }

  /** Even before that, a follower is woken or its channel closes as soon as its own leader is done. */
  lemma FollowersAreReleased(s: State, c: Client)
    requires Reachable(s) && c in s.followers
    requires s.followers[c].gen in s.leaders ==> s.leaders[s.followers[c].gen].stage.Ended?
    ensures !Open(s, s.followers[c].gen)
  {
    ReachableKeeps(s);
  }

  /** Once it has sent, a leader has sent for good, and it never sends again. */
  lemma StepHears(s: State, a: Action, c: Client)
    requires Inv(s) && Step(s, a).Some? && c in s.followers
    ensures var s' := Step(s, a).value;
            && c in s'.followers && s'.followers[c].gen == s.followers[c].gen
            && var gen := s.followers[c].gen;
            && gen in s'.leaders && (s'.leaders[gen].stage.Running? ==> s.leaders[gen].stage.Running?)
            && (s.leaders[gen].stage.Running? ==> (s'.followers[c].message <==> s'.leaders[gen].completed))
            && (!s.leaders[gen].stage.Running? ==>
                  s'.followers[c].message == s.followers[c].message && s'.leaders[gen].completed == s.leaders[gen].completed)
  {
  }

  /**
    Over any run a follower that joined a flight still at work has a message exactly when its leader
    has completed, whatever cancels, drops and newer flights of the key come in between; one that
    joined later never gets one, and waits for its channel to close (FollowersAreReleased).
  */
  lemma {:induction false} FollowersHearIff(s: State, actions: seq<Action>, c: Client)
    requires Reachable(s) && Run(s, actions).Some? && c in s.followers
    ensures var s' := Run(s, actions).value;
            && c in s'.followers && s'.followers[c].gen == s.followers[c].gen
            && s.followers[c].gen in s.leaders && s.followers[c].gen in s'.leaders
            && var gen := s.followers[c].gen;
            && (s.leaders[gen].stage.Running? ==> (s'.followers[c].message <==> s'.leaders[gen].completed))
            && (!s.leaders[gen].stage.Running? ==> s'.followers[c].message == s.followers[c].message)
  {
    ReachableKeeps(s);
    Hears(s, actions, c);
  }

  lemma {:induction false} Hears(s: State, actions: seq<Action>, c: Client)
    requires Inv(s) && Run(s, actions).Some? && c in s.followers
    ensures var s' := Run(s, actions).value;
            && c in s'.followers && s'.followers[c].gen == s.followers[c].gen
            && s.followers[c].gen in s'.leaders
            && var gen := s.followers[c].gen;
            && (s.leaders[gen].stage.Running? ==> (s'.followers[c].message <==> s'.leaders[gen].completed))
            && (!s.leaders[gen].stage.Running? ==>
                  s'.followers[c].message == s.followers[c].message && s'.leaders[gen].completed == s.leaders[gen].completed)
    decreases |actions|
  {
    if actions != [] {
      StepKeeps(s, actions[0]);
      StepHears(s, actions[0], c);
      Hears(Step(s, actions[0]).value, actions[1..], c);
    }
  }

  /**
    A leader can always go on, and one at work can complete: then its followers have its message,
    and nobody else has got one.
  */
  lemma LeadersGoOn(s: State, gen: nat)
    requires Reachable(s) && gen in s.leaders
    ensures match s.leaders[gen].stage
            case Running => Step(s, Send(gen)).Some? && Step(s, Dropped(gen, true)).Some? && Step(s, Dropped(gen, false)).Some?
            case Woken => Step(s, Unlist(gen)).Some?
            case Unlisted => Step(s, Dropped(gen, false)).Some? && Step(s, Dropped(gen, true)).Some?
            case Cleaning => Step(s, Clean(gen)).Some?
            case Ended => true
    ensures s.leaders[gen].stage.Running? ==>
              var s' := Step(s, Send(gen)).value;
              && s'.followers.Keys == s.followers.Keys
              && (forall c :: c in s.followers ==> s'.followers[c].gen == s.followers[c].gen)
              && (forall c :: c in s.followers && s.followers[c].gen == gen ==> s'.followers[c].message)
              && (forall c :: c in s.followers && s.followers[c].gen != gen ==> s'.followers[c] == s.followers[c])
  {
    ReachableKeeps(s);
  }

  /** Completing takes three steps, after which the flight is over and its key is free, unless a newer flight has it. */
  lemma CompletingFreesTheKey(s: State, gen: nat)
    requires Reachable(s) && gen in s.leaders && s.leaders[gen].stage.Running?
    ensures var end := Run(s, [Send(gen), Unlist(gen), Dropped(gen, false)]);
            && end.Some? && gen in end.value.leaders && end.value.leaders[gen].stage.Ended? && end.value.leaders[gen].completed
            && var key := s.leaders[gen].key;
            key in end.value.registry <==> key in s.registry && s.registry[key] != gen
  {
    ReachableKeeps(s);
    var s1 := Step(s, Send(gen)).value;
    var s2 := Step(s1, Unlist(gen)).value;
    var s3 := Step(s2, Dropped(gen, false)).value;
    var actions := [Send(gen), Unlist(gen), Dropped(gen, false)];
    assert actions[1..] == [Unlist(gen), Dropped(gen, false)];
    assert actions[1..][1..] == [Dropped(gen, false)];
    assert Run(s2, [Dropped(gen, false)]) == Some(s3);
    assert Run(s1, actions[1..]) == Some(s3);
  }

  /** Asking for a key always gets an answer. */
  lemma AcquiringIsAnswered(s: State, client: Client, key: Key)
    requires Reachable(s) && client !in s.followers
    ensures var s' := Step(s, Acquire(client, key));
            && s'.Some?
            && if key in s.registry then client in s'.value.followers && s'.value.followers[client].gen == s.registry[key]
               else Leads(s'.value, s.next, key)
  {
    ReachableKeeps(s);
  }

  /** The guarded removals: in `complete`, in `drop` when the lock is free, and in the cleanup task. */
  predicate Removal(a: Action, gen: nat) {
    a == Unlist(gen) || a == Dropped(gen, false) || a == Clean(gen)
  }

  // ---------- the registry as the object the source keeps ----------

  datatype Flight = Lead(gen: nat) | Follow(gen: nat)

  /** The object against the steps: `s` is the state of the system the object is in. */
  class Registry {
    var entries: map<Key, nat>
    var nextGeneration: nat

    ghost predicate Mirrors(s: State)
      reads this
    {
      entries == s.registry && nextGeneration == s.next
    }

    constructor ()
      ensures Mirrors(INITIAL)
    {
      entries, nextGeneration := map[], 1;
    }

    /** `try_acquire` */
    method TryAcquire(key: Key, ghost s: State, ghost client: Client) returns (r: Flight)
      requires Mirrors(s) && client !in s.followers
      modifies this
      ensures r == if key in old(entries) then Follow(old(entries)[key]) else Lead(old(nextGeneration))
      ensures Step(s, Acquire(client, key)).Some? && Mirrors(Step(s, Acquire(client, key)).value)
      ensures var s' := Step(s, Acquire(client, key)).value;
              match r
              case Follow(gen) => client in s'.followers && s'.followers[client] == Follower(gen, false) && s'.leaders == s.leaders
              case Lead(gen) => Leads(s', gen, key) && s'.followers == s.followers
    {
      if key in entries {
        r := Follow(entries[key]);
      } else {
        r := Lead(nextGeneration);
        nextGeneration := nextGeneration + 1;
        entries := entries[key := r.gen];
      }
    }

    /** The guarded removal in `complete`, `drop` and the cleanup task. */
    method Remove(key: Key, gen: nat, ghost s: State, ghost a: Action)
      requires Mirrors(s) && Removal(a, gen) && Step(s, a).Some? && s.leaders[gen].key == key
      modifies this`entries
      ensures Mirrors(Step(s, a).value)
      ensures forall k :: k in entries <==> k in old(entries) && !(k == key && old(entries)[k] == gen)
      ensures forall k :: k in entries ==> entries[k] == old(entries)[k]
    {
      if key in entries && entries[key] == gen {
        entries := entries - {key};
      }
    }

    /** `cancel` */
    method CancelKey(key: Key, ghost s: State)
      requires Mirrors(s) && Inv(s)
      modifies this`entries
      ensures Step(s, Cancel(key)).Some? && Mirrors(Step(s, Cancel(key)).value)
      ensures key !in entries && forall gen :: !Leads(Step(s, Cancel(key)).value, gen, key)
    {
      entries := entries - {key};
    }
  }
}
