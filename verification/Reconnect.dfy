/**
 Reconnection (`reconnect_op`, `resolve_op`). Reads and writes that fail on one
 stream all ask for a reconnect; a mutex lets one of them work at a time. The
 first replaces the stream, the others find it replaced and are told to try
 again. Brokers are tried in the order of the list, over and over, with a
 back-off exactly at the end of each round.
 */
module Reconnect {
  import Mutex = AsyncMutex

  // ----- choosing a broker

  /** A broker that is tried, or the end of a round. */
  datatype Turn = Tried(host: nat) | EndOfRound

  /** The place of the k-th turn in its round; a round has a turn for each of the
      `n` brokers and one for the back-off. */
  function Place(k: nat, n: nat): (p: nat)
    ensures p <= n
  {
    if k <= n then k else Place(k - (n + 1), n)
  }

  /** The k-th turn with `n` brokers. */
  function TurnAt(k: nat, n: nat): Turn {
    if Place(k, n) < n then Tried(Place(k, n)) else EndOfRound
  }

  datatype Choice = HostNotFound | BackOff | Resolve(host: nat)

  /** The answer to the k-th question for a broker. */
  function AnswerAt(k: nat, n: nat): Choice {
    if n == 0 then HostNotFound
    else match TurnAt(k, n)
      case Tried(h) => Resolve(h)
      case EndOfRound => BackOff
  }

  class Endpoints {
    const servers: nat
    var currentHost: int
    /** What was answered, to whoever asked. */
    ghost var answers: seq<Choice>

    /** The answers so far are the rounds through the list. */
    ghost predicate Valid()
      reads this
    {
      && -1 <= currentHost && (servers > 0 ==> currentHost < servers)
      && (servers > 0 ==> Place(|answers|, servers) == currentHost + 1)
      && (forall k :: 0 <= k < |answers| ==> answers[k] == AnswerAt(k, servers))
    }

    constructor (servers: nat)
      ensures Valid() && this.servers == servers && answers == []
    {
      this.servers := servers;
      currentHost, answers := -1, [];
    }

    /** `resolve_op::perform`; it is also what a failed resolution continues with. */
    method Perform() returns (c: Choice)
      requires Valid()
      modifies this
      ensures Valid() && answers == old(answers) + [c]
      ensures c.HostNotFound? <==> servers == 0
      ensures servers > 0 ==> c == match TurnAt(|old(answers)|, servers)
                                   case Tried(h) => Resolve(h)
                                   case EndOfRound => BackOff
    {
      if servers == 0 {
        answers := answers + [HostNotFound];
        return HostNotFound;
      }
      NextTurn(|answers|, servers);
      currentHost := currentHost + 1;
      if currentHost + 1 > servers {
        currentHost := -1;
        answers := answers + [BackOff];
        return BackOff;
      }
      answers := answers + [Resolve(currentHost)];
      return Resolve(currentHost);
    }
  }

  lemma {:induction false} NextTurn(k: nat, n: nat)
    ensures Place(k + 1, n) == if Place(k, n) == n then 0 else Place(k, n) + 1
  {
    if k > n { NextTurn(k - (n + 1), n); }
  }

  /** Between two back-offs every broker is tried exactly once, in order. */
  lemma {:induction false} RoundsAreComplete(n: nat, round: nat, h: nat)
    requires h <= n
    ensures TurnAt(round * (n + 1) + h, n) == if h < n then Tried(h) else EndOfRound
  {
    if round > 0 {
      var k := (round - 1) * (n + 1) + h;
      assert round * (n + 1) + h == k + (n + 1);
      RoundsAreComplete(n, round - 1, h);
    }
  }

  // ----- one reconnect at a time

  datatype Result = Replaced | TryAgain | Aborted | NoRecovery

  /** A finished request: which, for which stream, whether the client was open, and
      how it ended. */
  datatype Ended = Ended(id: nat, seen: nat, open: bool, result: Result)

  /** What the holder of the mutex is doing: its grant is on its way, or it is
      looking for a new connection. */
  datatype Phase = Idle | Granted(id: nat) | Working(id: nat)

  function Replacements(log: seq<Ended>): nat {
    if log == [] then 0
    else Replacements(log[..|log| - 1]) + (if log[|log| - 1].result.Replaced? then 1 else 0)
  }

  /** How a request may end, with the stream in use at that moment. */
  predicate Rightly(e: Ended, stream: nat) {
    && e.seen <= stream
    && if !e.open then e.result.Aborted?
       else if e.seen < stream then e.result.TryAgain?
       else e.result.Replaced? || e.result.NoRecovery?
  }

  /** Every request ended rightly for the stream in use, which is the number of
      replacements made before. */
  predicate SingleFlight(log: seq<Ended>) {
    if log == [] then true
    else
      var front, e := log[..|log| - 1], log[|log| - 1];
      SingleFlight(front) && Rightly(e, Replacements(front))
  }

  lemma FlightAppend(log: seq<Ended>, e: Ended)
    ensures SingleFlight(log + [e]) <==> SingleFlight(log) && Rightly(e, Replacements(log))
    ensures Replacements(log + [e]) == Replacements(log) + (if e.result.Replaced? then 1 else 0)
  {
    assert (log + [e])[..|log|] == log;
  }

  /** The one request that replaced a stream. */
  predicate Replaces(log: seq<Ended>, s: nat, i: nat) {
    i < |log| && log[i].seen == s && log[i].result.Replaced?
  }

  /** The request saw that stream and ended before, or after, it was replaced. */
  predicate EndedFor(log: seq<Ended>, s: nat, i: nat, j: nat) {
    j < |log| && log[j].seen == s ==>
      if j < i then log[j].result.Aborted? || log[j].result.NoRecovery?
      else if j > i then log[j].result == (if log[j].open then TryAgain else Aborted)
      else true
  }

  lemma {:induction false} NotYetReplaced(log: seq<Ended>, s: nat, j: nat)
    requires SingleFlight(log) && Replacements(log) <= s && j < |log| && log[j].seen == s
    ensures log[j].result.Aborted? || log[j].result.NoRecovery?
  {
    var front := log[..|log| - 1];
    if j < |log| - 1 { NotYetReplaced(front, s, j); }
  }

  /** One replacement and the rest try again: a stream that is no longer in use was
      replaced by exactly one request. Of the others that had seen it, none that
      ended earlier was told that it was replaced, and all that ended later were
      told to try again, or aborted if the client had been closed. */
  lemma {:induction false} OneReplaces(log: seq<Ended>, s: nat) returns (i: nat)
    requires SingleFlight(log) && s < Replacements(log)
    ensures Replaces(log, s, i)
    ensures forall j: nat :: Replaces(log, s, j) ==> j == i
    ensures forall j: nat :: EndedFor(log, s, i, j)
  {
    var n := |log| - 1;
    var front := log[..n];
    if s < Replacements(front) {
      i := OneReplaces(front, s);
      forall j: nat ensures EndedFor(log, s, i, j) && (Replaces(log, s, j) ==> j == i) {
        assert EndedFor(front, s, i, j) && (Replaces(front, s, j) ==> j == i);
      }
    } else {
      i := n;
      forall j: nat ensures EndedFor(log, s, i, j) && (Replaces(log, s, j) ==> j == i) {
        if j < n && log[j].seen == s { NotYetReplaced(front, s, j); }
      }
    }
  }

  class Reconnector {
    const mutex: Mutex.AsyncMutex
    const endpoints: Endpoints
    var open: bool
    /** Streams are numbered in the order in which they come into use. */
    var stream: nat
    var phase: Phase
    var seen: map<nat, nat>
    ghost var log: seq<Ended>

    ghost predicate Valid()
      reads this, mutex, endpoints
    {
      Guarded() && SingleFlight(log) && stream == Replacements(log)
    }

    /** The mutex guards the work. */
    ghost predicate Guarded()
      reads this, mutex, endpoints
    {
      && mutex.Valid() && endpoints.Valid()
      && (mutex.locked <==> !phase.Idle?)
      && (!phase.Idle? ==> mutex.granted != [] && mutex.granted[|mutex.granted| - 1] == phase.id)
      && (forall x :: x in mutex.requested ==> x in seen && seen[x] <= stream)
      && (phase.Working? ==> phase.id in seen && seen[phase.id] == stream)
    }

    constructor (servers: nat)
      ensures Valid() && fresh(mutex) && fresh(endpoints) && log == [] && stream == 0
      ensures endpoints.servers == servers && endpoints.answers == []
    {
      mutex := new Mutex.AsyncMutex();
      endpoints := new Endpoints(servers);
      open, stream, phase, seen, log := true, 0, Idle, map[], [];
    }

    /** `perform`: a read or a write failed on the stream `s`. */
    method Request(id: nat, s: nat)
      requires Valid() && id !in mutex.requested && s <= stream
      modifies this, mutex
      ensures Valid() && stream == old(stream) && log == old(log) && seen == old(seen)[id := s]
      ensures phase == if old(phase).Idle? then Granted(id) else old(phase)
    {
      var idle := !mutex.locked;
      if !idle { HolderAsked(); }
      mutex.Lock(id);
      seen := seen[id := s];
      if idle { phase := Granted(id); }
    }

    ghost function Ending(result: Result): Ended
      reads this
      requires phase.Granted? && phase.id in seen
    {
      Ended(phase.id, seen[phase.id], open, result)
    }

    /** `complete`: the mutex goes to the next waiting request. */
    method Complete(result: Result)
      requires Guarded() && phase.Granted? && phase.id in seen
      requires SingleFlight(log + [Ending(result)]) && stream == Replacements(log + [Ending(result)])
      modifies this, mutex
      ensures Valid() && stream == old(stream) && open == old(open)
      ensures log == old(log) + [old(Ending(result))]
    {
      log := log + [Ended(phase.id, seen[phase.id], open, result)];
      var next := mutex.Unlock();
      phase := if next.Waiting? then Granted(next.id) else Idle;
    }

    /** The holder is one of those that asked. */
    lemma HolderAsked()
      requires Valid() && !phase.Idle?
      ensures phase.id in mutex.requested && phase.id in seen
    {
      Mutex.ExceptMembers(mutex.requested, mutex.aborted);
      var s := mutex.granted + Mutex.Live(mutex.waiting);
      assert phase.id in mutex.granted;
      assert phase.id in s;
    }

    /** `on_locked` after a grant: a stream that was replaced in the meantime is
        not replaced again. */
    method OnLocked()
      requires Valid() && phase.Granted?
      modifies this, mutex
      ensures Valid() && stream == old(stream)
      ensures old(phase.id) in old(seen)
      ensures var id, was := old(phase.id), old(seen)[old(phase.id)];
        if !old(open) then log == old(log) + [Ended(id, was, false, Aborted)]
        else if was != stream then log == old(log) + [Ended(id, was, true, TryAgain)]
        else log == old(log) && phase == Working(id)
    {
      HolderAsked();
      if !open {
        FlightAppend(log, Ending(Aborted));
        Complete(Aborted);
      } else if seen[phase.id] != stream {
        FlightAppend(log, Ending(TryAgain));
        Complete(TryAgain);
      } else {
        phase := Working(phase.id);
      }
    }

    /** `on_connect` with success: the stream is replaced. */
    method OnConnected()
      requires Valid() && phase.Working?
      modifies this, mutex
      ensures Valid()
      ensures old(phase.id) in old(seen) && old(seen)[old(phase.id)] == old(stream)
      ensures stream == old(stream) + (if old(open) then 1 else 0)
      ensures log == old(log) + [Ended(old(phase.id), old(stream), old(open), if old(open) then Replaced else Aborted)]
    {
      var done := open;
      phase := Granted(phase.id);
      FlightAppend(log, Ending(if done then Replaced else Aborted));
      if done {
        stream := stream + 1;
        Complete(Replaced);
      } else {
        Complete(Aborted);
      }
    }

    /** `do_reconnect` and `on_next_endpoint`: the next turn. A back-off or a
        broker to connect to leaves the holder at work; so does a failed
        connection, which asks again. */
    method NextEndpoint() returns (c: Choice)
      requires Valid() && phase.Working?
      modifies this, mutex, endpoints
      ensures Valid() && stream == old(stream)
      ensures endpoints.answers == old(endpoints.answers) + [c]
      ensures c.HostNotFound? <==> endpoints.servers == 0
      ensures !c.HostNotFound? ==> c == match TurnAt(|old(endpoints.answers)|, endpoints.servers)
                                        case Tried(h) => Resolve(h)
                                        case EndOfRound => BackOff
      ensures !c.HostNotFound? && old(open) ==> phase == old(phase) && log == old(log)
      ensures old(open) && c.HostNotFound? ==>
        log == old(log) + [Ended(old(phase.id), stream, true, NoRecovery)]
      ensures !old(open) ==> log == old(log) + [Ended(old(phase.id), stream, false, Aborted)]
    {
      c := endpoints.Perform();
      if !open {
        phase := Granted(phase.id);
        FlightAppend(log, Ending(Aborted));
        Complete(Aborted);
      } else if c.HostNotFound? {
        phase := Granted(phase.id);
        FlightAppend(log, Ending(NoRecovery));
        Complete(NoRecovery);
      }
    }

    /** `cancel`: those that wait are told; the holder goes on until it looks. */
    method Cancel()
      requires Valid()
      modifies this, mutex
      ensures Valid() && stream == old(stream) && !open && phase == old(phase)
      ensures mutex.waiting == [] && log == old(log)
    {
      mutex.CancelAll();
      open := false;
    }

    /** One waiting request is cancelled and leaves a hole. */
    method CancelWaiting(k: nat)
      requires Valid() && k < |mutex.waiting|
      modifies mutex
      ensures Valid() && stream == old(stream) && open == old(open) && phase == old(phase) && log == old(log)
      ensures mutex.aborted == if old(mutex.waiting[k]).Waiting? then old(mutex.aborted) + {old(mutex.waiting[k]).id}
                               else old(mutex.aborted)
    {
      mutex.CancelOne(k);
    }

    /** Over all questions of all holders: round after round each broker of the list
        is returned once, in order, with a back-off at the end of the round. */
    lemma BrokersInRounds(round: nat, h: nat)
      requires Valid() && endpoints.servers > 0 && h <= endpoints.servers
      requires round * (endpoints.servers + 1) + h < |endpoints.answers|
      ensures endpoints.answers[round * (endpoints.servers + 1) + h] == if h < endpoints.servers then Resolve(h) else BackOff
    {
      RoundsAreComplete(endpoints.servers, round, h);
    }

    /** Whatever happened: exactly one request replaced each stream that is no
        longer in use, and the others were told as `EndedFor` says. */
    lemma OneReplacementPerStream(s: nat) returns (i: nat)
      requires Valid() && s < stream
      ensures Replaces(log, s, i)
      ensures forall j: nat :: Replaces(log, s, j) ==> j == i
      ensures forall j: nat :: EndedFor(log, s, i, j)
    {
      i := OneReplaces(log, s);
    }
  }
}
