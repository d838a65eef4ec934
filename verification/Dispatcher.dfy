/** The dispatcher that the data and execution clients share: a handler list, a reference count
    and one socket. */
module Dispatchers {

  type HandlerId = nat

  /** What a handler does when it is called: it may (un)register handlers, and it may raise. */
  datatype Act = Registers(h: HandlerId) | Unregisters(h: HandlerId)
  datatype Reaction = Reaction(acts: seq<Act>, raises: bool)

  datatype Registry = Registry(handlers: seq<HandlerId>, refcount: nat)

  function Without(handlers: seq<HandlerId>, h: HandlerId): (rest: seq<HandlerId>) {
    if handlers == [] then []
    else if handlers[0] == h then handlers[1..]
    else [handlers[0]] + Without(handlers[1..], h)
  }

  function Acted(r: Registry, a: Act): Registry {
    match a
    case Registers(h) => Registry(if h in r.handlers then r.handlers else r.handlers + [h], r.refcount + 1)
    case Unregisters(h) => r.(handlers := Without(r.handlers, h))
  }

  function ActedAll(r: Registry, acts: seq<Act>): Registry
    decreases |acts|
  {
    if acts == [] then r else ActedAll(Acted(r, acts[0]), acts[1..])
  }

  /** How many handlers a message reaches: all of them, or those up to the first that raises. */
  function Reach(handlers: seq<HandlerId>, react: HandlerId -> Reaction): (n: nat)
    ensures n <= |handlers|
    ensures forall i :: 0 <= i < n - 1 ==> !react(handlers[i]).raises
    ensures n < |handlers| ==> n > 0 && react(handlers[n - 1]).raises
  {
    if handlers == [] then 0
    else if react(handlers[0]).raises then 1
    else 1 + Reach(handlers[1..], react)
  }

  function AllActs(handlers: seq<HandlerId>, react: HandlerId -> Reaction): seq<Act> {
    if handlers == [] then []
    else AllActs(handlers[..|handlers| - 1], react) + react(handlers[|handlers| - 1]).acts
  }

  predicate NoDuplicates(handlers: seq<HandlerId>) {
    forall i, j :: 0 <= i < j < |handlers| ==> handlers[i] != handlers[j]
  }

  lemma {:induction false} WithoutRemovesExactly(handlers: seq<HandlerId>, h: HandlerId)
    requires NoDuplicates(handlers)
    ensures NoDuplicates(Without(handlers, h))
    ensures forall k :: k in Without(handlers, h) <==> k in handlers && k != h
    ensures |Without(handlers, h)| == |handlers| - (if h in handlers then 1 else 0)
    decreases |handlers|
  {
    if handlers != [] {
      assert handlers == [handlers[0]] + handlers[1..];
      if handlers[0] != h {
        WithoutRemovesExactly(handlers[1..], h);
        var rest := Without(handlers[1..], h);
        assert handlers[0] !in handlers[1..];
        assert forall k :: 0 <= k < |rest| ==> rest[k] in rest;
      }
    }
  }

  lemma {:induction false} ActedAllSplits(r: Registry, first: seq<Act>, second: seq<Act>)
    ensures ActedAll(r, first + second) == ActedAll(ActedAll(r, first), second)
    decreases |first|
  {
    if first == [] {
      assert first + second == second;
    } else {
      assert (first + second)[1..] == first[1..] + second;
      ActedAllSplits(Acted(r, first[0]), first[1..], second);
    }
  }

  lemma OneMoreHandler(r: Registry, called: seq<HandlerId>, react: HandlerId -> Reaction, h: HandlerId)
    ensures ActedAll(r, AllActs(called + [h], react)) == ActedAll(ActedAll(r, AllActs(called, react)), react(h).acts)
  {
    assert (called + [h])[..|called|] == called;
    ActedAllSplits(r, AllActs(called, react), react(h).acts);
  }

  /** The first `n` handlers do not raise. */
  ghost predicate Silent(handlers: seq<HandlerId>, react: HandlerId -> Reaction, n: nat) {
    n <= |handlers| && forall i :: 0 <= i < n ==> !react(handlers[i]).raises
  }

  lemma {:induction false} ReachGrows(handlers: seq<HandlerId>, react: HandlerId -> Reaction, n: nat)
    requires Silent(handlers, react, n)
    ensures n == |handlers| ==> Reach(handlers, react) == n
    ensures n < |handlers| && react(handlers[n]).raises ==> Reach(handlers, react) == n + 1
    ensures n < |handlers| && !react(handlers[n]).raises ==> Silent(handlers, react, n + 1)
    decreases n
  {
    if n > 0 {
      ReachGrows(handlers[1..], react, n - 1);
    }
  }

  class Dispatcher {
    var handlers: seq<HandlerId>
    var refcount: nat
    var connected: bool

    function State(): Registry
      reads this
    {
      Registry(handlers, refcount)
    }

    constructor ()
      ensures State() == Registry([], 0) && !connected
    {
      handlers, refcount, connected := [], 0, false;
    }

    method Register(h: HandlerId)
      modifies this`handlers, this`refcount
      ensures State() == Acted(old(State()), Registers(h))
    {
      if h !in handlers {
        handlers := handlers + [h];
      }
      refcount := refcount + 1;
    }

    method Unregister(h: HandlerId)
      modifies this`handlers
      ensures State() == Acted(old(State()), Unregisters(h))
    {
      if h in handlers {
        handlers := Without(handlers, h);
      } else {
        WithoutAbsent(handlers, h);
      }
    }

    /** Each handler registered at the start is called once and in order, whatever the handlers register or
        unregister meanwhile; only a handler that raises keeps the message from those after it. */
    method Dispatch(react: HandlerId -> Reaction) returns (called: seq<HandlerId>)
      modifies this`handlers, this`refcount
      ensures called == old(handlers)[..Reach(old(handlers), react)]
      ensures (forall h :: h in old(handlers) ==> !react(h).raises) ==> called == old(handlers)
      ensures State() == ActedAll(old(State()), AllActs(called, react))
    {
      var copy := handlers;
      ghost var start := State();
      called := [];
      for n := 0 to |copy|
        invariant called == copy[..n]
        invariant Silent(copy, react, n)
        invariant State() == ActedAll(start, AllActs(called, react))
      {
        var reaction := react(copy[n]);
        OneMoreHandler(start, called, react, copy[n]);
        ReachGrows(copy, react, n);
        assert copy[..n + 1] == called + [copy[n]];
        called := called + [copy[n]];
        Perform(reaction.acts);
        if reaction.raises {
          assert copy[n] in copy;
          return;
        }
      }
      ReachGrows(copy, react, |copy|);
    }

    method Perform(acts: seq<Act>)
      modifies this`handlers, this`refcount
      ensures State() == ActedAll(old(State()), acts)
    {
      for k := 0 to |acts|
        invariant ActedAll(State(), acts[k..]) == ActedAll(old(State()), acts)
      {
        assert acts[k..][0] == acts[k] && acts[k..][1..] == acts[k + 1..];
        match acts[k] {
          case Registers(h) => Register(h);
          case Unregisters(h) => Unregister(h);
        }
      }
    }

    /** Opens the socket if it is not up; `opens` says whether that works, and it raises if not. */
    method EnsureConnected(opens: bool) returns (raised: bool)
      modifies this`connected
      ensures connected == (old(connected) || opens)
      ensures raised <==> !connected
    {
      raised := false;
      if !connected {
        connected := opens;
        raised := !opens;
      }
    }

    method Release()
      modifies this`refcount, this`connected
      ensures refcount == if old(refcount) > 0 then old(refcount) - 1 else 0
      ensures connected == (old(connected) && refcount > 0)
    {
      if refcount > 0 {
        refcount := refcount - 1;
      }
      if refcount == 0 && connected {
        connected := false;
      }
    }

    /** A client's `_connect`, which leaves its registration behind when it raises, and its `_disconnect`. */
    method ClientConnects(h: HandlerId, opens: bool) returns (raised: bool)
      modifies this
      ensures Shared(State(), connected) == After(old(Shared(State(), connected)), Connects(h, opens))
      ensures raised <==> !connected
    {
      Register(h);
      raised := EnsureConnected(opens);
    }

    method ClientDisconnects(h: HandlerId)
      modifies this
      ensures Shared(State(), connected) == After(old(Shared(State(), connected)), Disconnects(h))
    {
      Unregister(h);
      Release();
    }
  }

  lemma {:induction false} WithoutAbsent(handlers: seq<HandlerId>, h: HandlerId)
    requires h !in handlers
    ensures Without(handlers, h) == handlers
    decreases |handlers|
  {
    if handlers != [] {
      WithoutAbsent(handlers[1..], h);
    }
  }

  // ---------------------------------------------------------------- runs of clients

  datatype Shared = Shared(registry: Registry, connected: bool)
  datatype Move = Connects(h: HandlerId, opens: bool) | Disconnects(h: HandlerId)

  function After(s: Shared, m: Move): Shared {
    match m
    case Connects(h, opens) => Shared(Acted(s.registry, Registers(h)), s.connected || opens)
    case Disconnects(h) =>
      var r := Acted(s.registry, Unregisters(h));
      var count := if r.refcount > 0 then r.refcount - 1 else 0;
      Shared(r.(refcount := count), s.connected && count > 0)
  }

  function AfterAll(moves: seq<Move>): Shared {
    if moves == [] then Shared(Registry([], 0), false)
    else After(AfterAll(moves[..|moves| - 1]), moves[|moves| - 1])
  }

  /** The reference count is the number of registered clients, and the socket is up while there is one. */
  ghost predicate Balanced(s: Shared) {
    && NoDuplicates(s.registry.handlers)
    && s.registry.refcount == |s.registry.handlers|
    && (s.connected <==> s.registry.handlers != [])
  }

  /** Clients connect when they are not connected, and it works; and disconnect when they are (or nobody is). */
  predicate InTurn(s: Shared, m: Move) {
    match m
    case Connects(h, opens) => h !in s.registry.handlers && (s.connected || opens)
    case Disconnects(h) => h in s.registry.handlers || s.registry.handlers == []
  }

  lemma MoveIsBalancedExactly(s: Shared, m: Move)
    requires Balanced(s)
    ensures Balanced(After(s, m)) <==> InTurn(s, m)
  {
    if m.Disconnects? {
      WithoutRemovesExactly(s.registry.handlers, m.h);
      if m.h !in s.registry.handlers {
        WithoutAbsent(s.registry.handlers, m.h);
      }
    }
  }

  /** Balanced now and after every earlier move. */
  ghost predicate AlwaysBalanced(moves: seq<Move>) {
    Balanced(AfterAll(moves)) && (moves != [] ==> AlwaysBalanced(moves[..|moves| - 1]))
  }

  /** Every move came in turn. */
  predicate AlwaysInTurn(moves: seq<Move>) {
    moves != [] ==>
      AlwaysInTurn(moves[..|moves| - 1]) && InTurn(AfterAll(moves[..|moves| - 1]), moves[|moves| - 1])
  }

  /** Over any run of connects and disconnects the count and the socket stay right exactly when clients take turns
      and connects work: a second connect of a connected client, a connect that fails, or a disconnect of a client that
      is not connected unbalances them. */
  lemma {:induction false} RunsAreBalancedExactly(moves: seq<Move>)
    ensures AlwaysBalanced(moves) <==> AlwaysInTurn(moves)
    decreases |moves|
  {
    if moves != [] {
      var n := |moves| - 1;
      RunsAreBalancedExactly(moves[..n]);
      if AlwaysBalanced(moves[..n]) {
        MoveIsBalancedExactly(AfterAll(moves[..n]), moves[n]);
      }
    }
  }

  /** A client that connects twice keeps the socket up after it has gone, and a connect that fails is still counted. */
  lemma OutOfTurn(h: HandlerId)
    ensures AfterAll([Connects(h, true), Connects(h, true), Disconnects(h)]) == Shared(Registry([], 1), true)
    ensures AfterAll([Connects(h, false)]) == Shared(Registry([h], 1), false)
  {
    var once, twice := [Connects(h, true)], [Connects(h, true), Connects(h, true)];
    var thrice := [Connects(h, true), Connects(h, true), Disconnects(h)];
    assert AfterAll([]) == Shared(Registry([], 0), false);
    assert once[..0] == [] && [Connects(h, false)][..0] == [];
    assert AfterAll(once) == Shared(Registry([h], 1), true);
    assert twice[..1] == once;
    assert AfterAll(twice) == Shared(Registry([h], 2), true);
    assert thrice[..2] == twice;
  }

  /** The clients of a session, over the object itself. */
  method PlayClients(moves: seq<Move>) returns (d: Dispatcher)
    ensures Shared(d.State(), d.connected) == AfterAll(moves)
    ensures AlwaysInTurn(moves) ==> Balanced(Shared(d.State(), d.connected))
  {
    d := new Dispatcher();
    for k := 0 to |moves|
      invariant fresh(d) && Shared(d.State(), d.connected) == AfterAll(moves[..k])
    {
      assert moves[..k + 1][..k] == moves[..k];
      match moves[k] {
        case Connects(h, opens) =>
          var raised := d.ClientConnects(h, opens);
        case Disconnects(h) =>
          d.ClientDisconnects(h);
      }
    }
    assert moves[..|moves|] == moves;
    RunsAreBalancedExactly(moves);
  }

  /** Whether a client has connected and not disconnected since. */
  predicate IsLive(moves: seq<Move>, h: HandlerId) {
    var n := |moves| - 1;
    n >= 0 && ((moves[n].Connects? && moves[n].h == h) || (moves[n] != Disconnects(h) && IsLive(moves[..n], h)))
  }

  /** The registered handlers are the live clients, each once, in any run. */
  lemma {:induction false} RegisteredAreLive(moves: seq<Move>)
    ensures NoDuplicates(AfterAll(moves).registry.handlers)
    ensures forall h :: h in AfterAll(moves).registry.handlers <==> IsLive(moves, h)
    decreases |moves|
  {
    if moves != [] {
      var n := |moves| - 1;
      RegisteredAreLive(moves[..n]);
      WithoutRemovesExactly(AfterAll(moves[..n]).registry.handlers, moves[n].h);
    }
  }

  /** The move of a run at which a live client registered; connecting again does not register it again. */
  function RegisteredAt(moves: seq<Move>, h: HandlerId): (n: nat)
    requires IsLive(moves, h)
    ensures n < |moves|
  {
    var n := |moves| - 1;
    if IsLive(moves[..n], h) then RegisteredAt(moves[..n], h) else n
  }

  ghost predicate InOrder(handlers: seq<HandlerId>, at: map<HandlerId, nat>) {
    && (forall h :: h in handlers ==> h in at)
    && forall i, j :: 0 <= i < j < |handlers| ==> at[handlers[i]] < at[handlers[j]]
  }

  /** A list is in order if its first is, before the others in order. */
  lemma InOrderFromFirst(h: HandlerId, rest: seq<HandlerId>, at: map<HandlerId, nat>)
    ensures InOrder([h] + rest, at) <==>
      InOrder(rest, at) && h in at && forall k :: k in rest ==> k in at && at[h] < at[k]
  {
    var all := [h] + rest;
    assert forall i :: 0 <= i < |rest| ==> all[i + 1] == rest[i] && rest[i] in rest;
    if InOrder(all, at) {
      assert all[0] == h;
      forall k | k in rest
        ensures k in at && at[h] < at[k]
      {
        var j :| 0 <= j < |rest| && rest[j] == k;
        assert all[j + 1] == k;
      }
    }
  }

  lemma {:induction false} WithoutKeepsOrder(handlers: seq<HandlerId>, h: HandlerId, at: map<HandlerId, nat>)
    requires InOrder(handlers, at)
    ensures InOrder(Without(handlers, h), at)
    ensures forall k :: k in Without(handlers, h) ==> k in handlers
    decreases |handlers|
  {
    if handlers != [] {
      var first, rest := handlers[0], handlers[1..];
      assert handlers == [first] + rest;
      InOrderFromFirst(first, rest, at);
      if first != h {
        WithoutKeepsOrder(rest, h, at);
        InOrderFromFirst(first, Without(rest, h), at);
      }
    }
  }

  ghost function Registrations(moves: seq<Move>): map<HandlerId, nat> {
    map h | h in AfterAll(moves).registry.handlers && IsLive(moves, h) :: RegisteredAt(moves, h)
  }

  lemma SameTimes(handlers: seq<HandlerId>, at: map<HandlerId, nat>, now: map<HandlerId, nat>)
    requires InOrder(handlers, at)
    requires forall h :: h in handlers ==> h in now && now[h] == at[h]
    ensures InOrder(handlers, now)
  {
    assert forall i :: 0 <= i < |handlers| ==> handlers[i] in handlers;
  }

  lemma LastInOrder(handlers: seq<HandlerId>, h: HandlerId, at: map<HandlerId, nat>)
    requires InOrder(handlers, at) && h in at
    requires forall k :: k in handlers ==> at[k] < at[h]
    ensures InOrder(handlers + [h], at)
  {
    assert forall i :: 0 <= i < |handlers| ==> handlers[i] in handlers;
  }

  /** Handlers are called in the order in which the live clients registered. */
  lemma {:induction false} HandlersAreInOrder(moves: seq<Move>)
    ensures InOrder(AfterAll(moves).registry.handlers, Registrations(moves))
    decreases |moves|
  {
    if moves != [] {
      var before, m := moves[..|moves| - 1], moves[|moves| - 1];
      HandlersAreInOrder(before);
      RegisteredAreLive(before);
      RegisteredAreLive(moves);
      MoveKeepsOrder(before, m, moves);
    }
  }

  lemma MoveKeepsOrder(before: seq<Move>, m: Move, moves: seq<Move>)
    requires moves != [] && before == moves[..|moves| - 1] && m == moves[|moves| - 1]
    requires InOrder(AfterAll(before).registry.handlers, Registrations(before))
    requires NoDuplicates(AfterAll(before).registry.handlers)
    requires forall h :: h in AfterAll(before).registry.handlers <==> IsLive(before, h)
    requires forall h :: h in AfterAll(moves).registry.handlers <==> IsLive(moves, h)
    ensures InOrder(AfterAll(moves).registry.handlers, Registrations(moves))
  {
    var handlers, now := AfterAll(before).registry.handlers, Registrations(moves);
    if m.Disconnects? {
      WithoutKeepsOrder(handlers, m.h, Registrations(before));
      SameTimes(Without(handlers, m.h), Registrations(before), now);
    } else {
      SameTimes(handlers, Registrations(before), now);
      if m.h !in handlers {
        LastInOrder(handlers, m.h, now);
      }
    }
  }
}
