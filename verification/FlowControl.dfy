/**
 The proxy's downstream queues and the read window of a socket-backed channel.

 Every connection queues what its channel delivers until the local socket has
 taken it; the proxy keeps a counter per connection and one over all of them,
 and the channel stops reading while too much is unacknowledged. A turn is one
 socket or channel event, for any connection.
 */
module FlowControl {
  import opened Prelude

  const DEFAULT_CONNECTION_QUEUE_BYTES := 16 * 1024 * 1024
  const DEFAULT_TOTAL_QUEUE_BYTES := 64 * 1024 * 1024
  const DEFAULT_READ_WINDOW_BYTES := 1024 * 1024

  /** `SocketBackedChannel`'s counters. */
  datatype Channel = Channel(window: nat, unacknowledged: nat, paused: bool)

  /** One connection: the writes waiting for the local socket, the first of them `acknowledged` or not. */
  datatype Connection = Connection(channel: Channel, queued: nat, writes: seq<nat>, acknowledged: bool, writable: bool, overran: bool)

  datatype Limits = Limits(connection: nat, total: nat, opens: nat)

  /** `openings` are the channel opens ever admitted: whether each is still pending. */
  datatype Proxy = Proxy(limits: Limits, totalQueued: nat, connections: seq<Connection>, pendingOpens: nat, openings: seq<bool>)

  datatype Event =
    | Accept(window: nat)
    | Data(id: nat, length: nat)
    | Written(id: nat)
    | Settles(id: nat)
    | Dies(id: nat)
    | Opens
    | OpenDone(opening: nat)

  function NewProxy(limits: Limits): Proxy { Proxy(limits, 0, [], 0, []) }

  // ----- The channel -----

  /** A chunk arrives; reading stops once the window is used up. */
  function Received(c: Channel, length: nat): Channel {
    var unacknowledged := c.unacknowledged + length;
    c.(unacknowledged := unacknowledged, paused := c.paused || unacknowledged >= c.window)
  }

  /** The consumer is done with some bytes; reading resumes at half the window. */
  function Acknowledged(c: Channel, length: nat): Channel {
    var unacknowledged := Max(0, c.unacknowledged - length);
    c.(unacknowledged := unacknowledged, paused := c.paused && 2 * unacknowledged > c.window)
  }

  // ----- The proxy -----

  function Queue(p: Proxy, id: nat, length: nat): Proxy
    requires id < |p.connections|
  {
    var c := p.connections[id];
    if length == 0 || !c.writable then p
    else if c.queued + length > p.limits.connection then
      p.(connections := p.connections[id := c.(writable := false, overran := true)])
    else if p.totalQueued + length > p.limits.total then
      p.(connections := p.connections[id := c.(writable := false)])
    else
      p.(totalQueued := p.totalQueued + length,
         connections := p.connections[id := c.(queued := c.queued + length, writes := c.writes + [length])])
  }

  /** The channel emits data only while it is not paused. */
  function OnData(p: Proxy, id: nat, length: nat): Proxy {
    if id >= |p.connections| || length == 0 || p.connections[id].channel.paused then p
    else
      var c := p.connections[id];
      Queue(p.(connections := p.connections[id := c.(channel := Received(c.channel, length))]), id, length)
  }

  /** The first waiting write reached the local socket, and its bytes are acknowledged. */
  function OnWritten(p: Proxy, id: nat): Proxy {
    if id >= |p.connections| || p.connections[id].writes == [] || p.connections[id].acknowledged || !p.connections[id].writable then p
    else
      var c := p.connections[id];
      p.(connections := p.connections[id := c.(channel := Acknowledged(c.channel, c.writes[0]), acknowledged := true)])
  }

  /** The first waiting write is over, written or not. */
  function OnSettles(p: Proxy, id: nat): Proxy {
    if id >= |p.connections| || p.connections[id].writes == [] then p
    else
      var c := p.connections[id];
      p.(totalQueued := Max(0, p.totalQueued - c.writes[0]),
         connections := p.connections[id := c.(queued := Max(0, c.queued - c.writes[0]), writes := c.writes[1..], acknowledged := false)])
  }

  function OnOpens(p: Proxy): Proxy {
    if p.limits.opens == 0 || p.pendingOpens >= p.limits.opens then p
    else p.(pendingOpens := p.pendingOpens + 1, openings := p.openings + [true])
  }

  /** Releasing a second time does nothing. */
  function OnOpenDone(p: Proxy, opening: nat): Proxy {
    if opening >= |p.openings| || !p.openings[opening] then p
    else p.(pendingOpens := Max(0, p.pendingOpens - 1), openings := p.openings[opening := false])
  }

  function Step(p: Proxy, e: Event): Proxy {
    match e
    case Accept(window) =>
      if window == 0 then p
      else p.(connections := p.connections + [Connection(Channel(window, 0, false), 0, [], false, true, false)])
    case Data(id, length) => OnData(p, id, length)
    case Written(id) => OnWritten(p, id)
    case Settles(id) => OnSettles(p, id)
    case Dies(id) => if id >= |p.connections| then p else p.(connections := p.connections[id := p.connections[id].(writable := false)])
    case Opens => OnOpens(p)
    case OpenDone(opening) => OnOpenDone(p, opening)
  }

  function Run(p: Proxy, turns: seq<Event>): Proxy
    decreases |turns|
  {
    if turns == [] then p else Run(Step(p, turns[0]), turns[1..])
  }

  // ----- The sums the counters stand for -----

  function Sum(lengths: seq<nat>): nat { if lengths == [] then 0 else lengths[0] + Sum(lengths[1..]) }

  function SumQueued(connections: seq<Connection>): nat {
    if connections == [] then 0 else connections[0].queued + SumQueued(connections[1..])
  }

  function CountPending(openings: seq<bool>): nat {
    if openings == [] then 0 else (if openings[0] then 1 else 0) + CountPending(openings[1..])
  }

  lemma {:induction false} SumAppend(lengths: seq<nat>, length: nat)
    ensures Sum(lengths + [length]) == Sum(lengths) + length
  {
    if lengths == [] {
      assert lengths + [length] == [length] && [length][1..] == [];
    } else {
      assert (lengths + [length])[1..] == lengths[1..] + [length];
      SumAppend(lengths[1..], length);
    }
  }

  lemma {:induction false} SumQueuedReplace(connections: seq<Connection>, id: nat, c: Connection)
    requires id < |connections|
    ensures SumQueued(connections[id := c]) + connections[id].queued == SumQueued(connections) + c.queued
    ensures connections[id].queued <= SumQueued(connections)
  {
    var replaced := connections[id := c];
    if id == 0 {
      assert replaced[1..] == connections[1..];
    } else {
      assert replaced[1..] == connections[1..][id - 1 := c];
      SumQueuedReplace(connections[1..], id - 1, c);
    }
  }

  lemma {:induction false} SumQueuedAppend(connections: seq<Connection>, c: Connection)
    ensures SumQueued(connections + [c]) == SumQueued(connections) + c.queued
  {
    if connections == [] {
      assert connections + [c] == [c] && [c][1..] == [];
    } else {
      assert (connections + [c])[1..] == connections[1..] + [c];
      SumQueuedAppend(connections[1..], c);
    }
  }

  lemma {:induction false} CountAppend(openings: seq<bool>)
    ensures CountPending(openings + [true]) == CountPending(openings) + 1
  {
    if openings == [] {
      assert openings + [true] == [true] && [true][1..] == [];
    } else {
      assert (openings + [true])[1..] == openings[1..] + [true];
      CountAppend(openings[1..]);
    }
  }

  lemma {:induction false} CountRelease(openings: seq<bool>, i: nat)
    requires i < |openings| && openings[i]
    ensures CountPending(openings[i := false]) == CountPending(openings) - 1
  {
    var released := openings[i := false];
    if i == 0 {
      assert released[1..] == openings[1..];
    } else {
      assert released[1..] == openings[1..][i - 1 := false];
      CountRelease(openings[1..], i - 1);
    }
  }

  // ----- The invariant -----

  /** The bytes of the first write that are already acknowledged but still counted. */
  function AcknowledgedHead(c: Connection): nat { if c.acknowledged && c.writes != [] then c.writes[0] else 0 }

  predicate ConnectionInv(c: Connection, chunk: nat) {
    && c.queued == Sum(c.writes)
    && (c.acknowledged ==> c.writes != [])
    && (forall length :: length in c.writes ==> 0 < length <= chunk)
    && c.queued <= c.channel.unacknowledged + AcknowledgedHead(c)
    && c.channel.window > 0
    && (c.channel.paused ==> 2 * c.channel.unacknowledged > c.channel.window)
    && (!c.channel.paused ==> c.channel.unacknowledged < c.channel.window)
    && c.channel.unacknowledged < c.channel.window + chunk
  }

  predicate ProxyInv(p: Proxy, chunk: nat) {
    && (forall c :: c in p.connections ==> ConnectionInv(c, chunk))
    && p.totalQueued == SumQueued(p.connections)
    && p.pendingOpens == CountPending(p.openings) && p.pendingOpens <= p.limits.opens
  }

  /** Every chunk is nonempty and no longer than `chunk`. */
  predicate Chunked(turns: seq<Event>, chunk: nat) { forall e :: e in turns && e.Data? ==> e.length <= chunk }

  lemma ReplaceKeeps(p: Proxy, id: nat, c: Connection, total: nat, chunk: nat)
    requires ProxyInv(p, chunk) && id < |p.connections| && ConnectionInv(c, chunk)
    requires total + p.connections[id].queued == p.totalQueued + c.queued
    ensures ProxyInv(p.(totalQueued := total, connections := p.connections[id := c]), chunk)
  {
    SumQueuedReplace(p.connections, id, c);
    var replaced := p.connections[id := c];
    forall other | other in replaced ensures ConnectionInv(other, chunk) {
      var i :| 0 <= i < |replaced| && replaced[i] == other;
      assert i != id ==> p.connections[i] in p.connections;
    }
  }

  lemma DataKeeps(p: Proxy, id: nat, length: nat, chunk: nat)
    requires ProxyInv(p, chunk) && length <= chunk
    ensures ProxyInv(OnData(p, id, length), chunk)
  {
    if id < |p.connections| && length > 0 && !p.connections[id].channel.paused {
      var c := p.connections[id];
      assert c in p.connections;
      var received := c.(channel := Received(c.channel, length));
      ReplaceKeeps(p, id, received, p.totalQueued, chunk);
      var q := p.(connections := p.connections[id := received]);
      assert q.connections[id] == received;
      QueueKeeps(q, id, length, chunk);
    }
  }

  /** What is queued was received and not acknowledged before. */
  lemma QueueKeeps(p: Proxy, id: nat, length: nat, chunk: nat)
    requires ProxyInv(p, chunk) && id < |p.connections| && 0 < length <= chunk
    requires p.connections[id].queued + length <= p.connections[id].channel.unacknowledged + AcknowledgedHead(p.connections[id])
    ensures ProxyInv(Queue(p, id, length), chunk)
  {
    var c := p.connections[id];
    assert c in p.connections;
    if !c.writable {
    } else if c.queued + length > p.limits.connection {
      ReplaceKeeps(p, id, c.(writable := false, overran := true), p.totalQueued, chunk);
    } else if p.totalQueued + length > p.limits.total {
      ReplaceKeeps(p, id, c.(writable := false), p.totalQueued, chunk);
    } else {
      SumAppend(c.writes, length);
      ReplaceKeeps(p, id, c.(queued := c.queued + length, writes := c.writes + [length]), p.totalQueued + length, chunk);
    }
  }

  lemma WrittenKeeps(p: Proxy, id: nat, chunk: nat)
    requires ProxyInv(p, chunk)
    ensures ProxyInv(OnWritten(p, id), chunk)
  {
    if OnWritten(p, id) != p {
      var c := p.connections[id];
      assert c in p.connections && c.writes[0] in c.writes;
      ReplaceKeeps(p, id, c.(channel := Acknowledged(c.channel, c.writes[0]), acknowledged := true), p.totalQueued, chunk);
    }
  }

  lemma SettlesKeeps(p: Proxy, id: nat, chunk: nat)
    requires ProxyInv(p, chunk)
    ensures ProxyInv(OnSettles(p, id), chunk)
  {
    if id < |p.connections| && p.connections[id].writes != [] {
      var c := p.connections[id];
      assert c in p.connections;
      SumQueuedReplace(p.connections, id, c);
      assert forall length :: length in c.writes[1..] ==> length in c.writes;
      ReplaceKeeps(p, id, c.(queued := c.queued - c.writes[0], writes := c.writes[1..], acknowledged := false),
                   p.totalQueued - c.writes[0], chunk);
    }
  }

  lemma OpensKeep(p: Proxy, opening: nat, chunk: nat)
    requires ProxyInv(p, chunk)
    ensures ProxyInv(OnOpens(p), chunk) && ProxyInv(OnOpenDone(p, opening), chunk)
  {
    CountAppend(p.openings);
    if opening < |p.openings| && p.openings[opening] { CountRelease(p.openings, opening); }
  }

  lemma StepKeeps(p: Proxy, e: Event, chunk: nat)
    requires ProxyInv(p, chunk) && (e.Data? ==> e.length <= chunk) && chunk > 0
    ensures ProxyInv(Step(p, e), chunk)
  {
    match e
    case Accept(window) =>
      if window > 0 { SumQueuedAppend(p.connections, Connection(Channel(window, 0, false), 0, [], false, true, false)); }
    case Data(id, length) => DataKeeps(p, id, length, chunk);
    case Written(id) => WrittenKeeps(p, id, chunk);
    case Settles(id) => SettlesKeeps(p, id, chunk);
    case Dies(id) =>
      if id < |p.connections| {
        assert p.connections[id] in p.connections;
        ReplaceKeeps(p, id, p.connections[id].(writable := false), p.totalQueued, chunk);
      }
    case Opens => OpensKeep(p, 0, chunk);
    case OpenDone(opening) => OpensKeep(p, opening, chunk);
  }

  lemma {:induction false} RunKeeps(p: Proxy, turns: seq<Event>, chunk: nat)
    requires ProxyInv(p, chunk) && Chunked(turns, chunk) && chunk > 0
    ensures ProxyInv(Run(p, turns), chunk)
    decreases |turns|
  {
    if turns != [] {
      assert turns[0] in turns && forall e :: e in turns[1..] ==> e in turns;
      StepKeeps(p, turns[0], chunk);
      RunKeeps(Step(p, turns[0]), turns[1..], chunk);
    }
  }

  // ----- What holds of every run -----

  /** The counters are the sums they stand for, so no subtraction from them ever needs its clamp at zero. */
  lemma ClampsNeverFire(limits: Limits, turns: seq<Event>, chunk: nat, id: nat)
    requires Chunked(turns, chunk) && chunk > 0
    ensures var p := Run(NewProxy(limits), turns);
      && p.totalQueued == SumQueued(p.connections)
      && (id < |p.connections| ==> p.connections[id].queued == Sum(p.connections[id].writes))
      && (id < |p.connections| && p.connections[id].writes != [] ==>
            && p.connections[id].writes[0] <= p.connections[id].queued
            && p.connections[id].writes[0] <= p.totalQueued
            && (!p.connections[id].acknowledged ==> p.connections[id].writes[0] <= p.connections[id].channel.unacknowledged))
  {
    var p := Run(NewProxy(limits), turns);
    RunKeeps(NewProxy(limits), turns, chunk);
    if id < |p.connections| {
      assert p.connections[id] in p.connections;
      SumQueuedReplace(p.connections, id, p.connections[id]);
    }
  }

  /** What a channel's connection has queued was received, and not acknowledged but for the write just done. */
  lemma QueuedIsUnacknowledged(limits: Limits, turns: seq<Event>, chunk: nat, id: nat)
    requires Chunked(turns, chunk) && chunk > 0 && id < |Run(NewProxy(limits), turns).connections|
    ensures var c := Run(NewProxy(limits), turns).connections[id];
      && c.queued - AcknowledgedHead(c) <= c.channel.unacknowledged < c.channel.window + chunk
  {
    RunKeeps(NewProxy(limits), turns, chunk);
    assert Run(NewProxy(limits), turns).connections[id] in Run(NewProxy(limits), turns).connections;
  }

  /** A channel with at most half its window outstanding - none at all, say - is reading. */
  lemma NeverLeftPaused(limits: Limits, turns: seq<Event>, chunk: nat, id: nat)
    requires Chunked(turns, chunk) && chunk > 0 && id < |Run(NewProxy(limits), turns).connections|
    ensures var c := Run(NewProxy(limits), turns).connections[id].channel;
      && (c.unacknowledged >= c.window ==> c.paused)
      && (2 * c.unacknowledged <= c.window ==> !c.paused)
  {
    RunKeeps(NewProxy(limits), turns, chunk);
    assert Run(NewProxy(limits), turns).connections[id] in Run(NewProxy(limits), turns).connections;
  }

  predicate NoneOverran(p: Proxy, window: nat) {
    forall c :: c in p.connections ==> !c.overran && c.channel.window <= window
  }

  lemma ReplaceSpares(p: Proxy, id: nat, c: Connection, window: nat)
    requires NoneOverran(p, window) && id < |p.connections| && !c.overran && c.channel.window <= window
    ensures forall other :: other in p.connections[id := c] ==> !other.overran && other.channel.window <= window
  {
    var replaced := p.connections[id := c];
    forall other | other in replaced ensures !other.overran && other.channel.window <= window {
      var i :| 0 <= i < |replaced| && replaced[i] == other;
      assert i != id ==> p.connections[i] in p.connections;
    }
  }

  lemma DataSpares(p: Proxy, id: nat, length: nat, chunk: nat, window: nat)
    requires ProxyInv(p, chunk) && NoneOverran(p, window) && length <= chunk && window + 2 * chunk <= p.limits.connection
    ensures NoneOverran(OnData(p, id, length), window)
  {
    if id < |p.connections| && length > 0 && !p.connections[id].channel.paused {
      var c := p.connections[id];
      assert c in p.connections;
      if c.writes != [] { assert c.writes[0] in c.writes; }
      assert AcknowledgedHead(c) <= chunk && c.queued + length <= p.limits.connection;
      var received := c.(channel := Received(c.channel, length));
      var connections := p.connections[id := received];
      ReplaceSpares(p, id, received, window);
      assert connections[id] == received;
      var q := p.(connections := connections);
      ReplaceSpares(q, id, received.(writable := false), window);
      ReplaceSpares(q, id, received.(queued := c.queued + length, writes := c.writes + [length]), window);
    }
  }

  lemma StepSpares(p: Proxy, e: Event, chunk: nat, window: nat)
    requires ProxyInv(p, chunk) && NoneOverran(p, window) && window + 2 * chunk <= p.limits.connection
    requires (e.Data? ==> e.length <= chunk) && (e.Accept? ==> e.window <= window)
    ensures NoneOverran(Step(p, e), window) && Step(p, e).limits == p.limits
  {
    match e
    case Data(id, length) => DataSpares(p, id, length, chunk, window);
    case Written(id) => if OnWritten(p, id) != p { SpareOne(p, id, Step(p, e).connections[id], window); }
    case Settles(id) => if OnSettles(p, id) != p { SpareOne(p, id, Step(p, e).connections[id], window); }
    case Dies(id) => if id < |p.connections| { SpareOne(p, id, Step(p, e).connections[id], window); }
    case _ =>
  }

  lemma SpareOne(p: Proxy, id: nat, c: Connection, window: nat)
    requires NoneOverran(p, window) && id < |p.connections| && c.overran == p.connections[id].overran
    requires c.channel.window == p.connections[id].channel.window
    ensures forall other :: other in p.connections[id := c] ==> !other.overran && other.channel.window <= window
  {
    assert p.connections[id] in p.connections;
    ReplaceSpares(p, id, c, window);
  }

  lemma {:induction false} RunSpares(p: Proxy, turns: seq<Event>, chunk: nat, window: nat)
    requires ProxyInv(p, chunk) && NoneOverran(p, window) && window + 2 * chunk <= p.limits.connection && chunk > 0
    requires Chunked(turns, chunk) && forall e :: e in turns && e.Accept? ==> e.window <= window
    ensures NoneOverran(Run(p, turns), window)
    decreases |turns|
  {
    if turns != [] {
      assert turns[0] in turns && forall e :: e in turns[1..] ==> e in turns;
      StepSpares(p, turns[0], chunk, window);
      StepKeeps(p, turns[0], chunk);
      RunSpares(Step(p, turns[0]), turns[1..], chunk, window);
    }
  }

  /**
   No connection over a socket-backed channel is ever cut off by the
   per-connection queue limit: with the default window and limit, whatever
   chunks of up to seven MiB the far end sends and however slowly the local
   socket drains.
   */
  lemma CutOffIsUnreachable(limits: Limits, turns: seq<Event>, chunk: nat)
    requires limits.connection == DEFAULT_CONNECTION_QUEUE_BYTES && 0 < chunk <= 7 * 1024 * 1024
    requires Chunked(turns, chunk) && forall e :: e in turns && e.Accept? ==> e.window <= DEFAULT_READ_WINDOW_BYTES
    ensures forall c :: c in Run(NewProxy(limits), turns).connections ==> !c.overran
  {
    RunSpares(NewProxy(limits), turns, chunk, DEFAULT_READ_WINDOW_BYTES);
  }

  // ----- What is queued and what is cut off -----

  /** Data of a live connection is queued if and only if both limits leave room for all of it; else its socket is given up,
      and nothing is queued. Whether the connection's own limit was the reason is recorded. */
  lemma DataIsQueuedExactly(p: Proxy, id: nat, length: nat)
    requires id < |p.connections| && length > 0 && !p.connections[id].channel.paused && p.connections[id].writable
    ensures var c, p' := p.connections[id], Step(p, Data(id, length));
      var c' := p'.connections[id];
      && |p'.connections| == |p.connections| && (forall other :: 0 <= other < |p.connections| && other != id ==> p'.connections[other] == p.connections[other])
      && c'.channel.unacknowledged == c.channel.unacknowledged + length
      && (c'.channel.paused <==> c'.channel.unacknowledged >= c.channel.window)
      && if c.queued + length <= p.limits.connection && p.totalQueued + length <= p.limits.total
         then c'.writes == c.writes + [length] && c'.queued == c.queued + length && p'.totalQueued == p.totalQueued + length
              && c'.writable && c'.overran == c.overran
         else c'.writes == c.writes && c'.queued == c.queued && p'.totalQueued == p.totalQueued
              && !c'.writable && (c'.overran <==> c.overran || c.queued + length > p.limits.connection)
  {}

  /** Data of a dead connection, or of a paused channel, is not queued. */
  lemma DeadDataIsDropped(p: Proxy, id: nat, length: nat)
    requires id < |p.connections| && (!p.connections[id].writable || p.connections[id].channel.paused)
    ensures var p' := Step(p, Data(id, length));
      p'.totalQueued == p.totalQueued && p'.connections[id].writes == p.connections[id].writes && p'.connections[id].queued == p.connections[id].queued
  {}

  /** Reading resumes at half the window, by what is acknowledged, and the acknowledged write leaves the queue when it settles. */
  lemma WriteLeavesQueue(p: Proxy, id: nat, chunk: nat)
    requires ProxyInv(p, chunk) && id < |p.connections| && p.connections[id].writes != []
    ensures var c, p' := p.connections[id], Step(p, Settles(id));
      p'.totalQueued == p.totalQueued - c.writes[0] && p'.connections[id].queued == c.queued - c.writes[0]
      && p'.connections[id].writes == c.writes[1..] && !p'.connections[id].acknowledged
    ensures var c, c' := p.connections[id], Step(p, Written(id)).connections[id];
      if c.acknowledged || !c.writable then c' == c
      else && c'.acknowledged && c'.writes == c.writes && c'.queued == c.queued
           && c'.channel.unacknowledged == Max(0, c.channel.unacknowledged - c.writes[0])
           && (c'.channel.paused <==> c.channel.paused && 2 * c'.channel.unacknowledged > c.channel.window)
  {
    var c := p.connections[id];
    assert c in p.connections && c.queued == Sum(c.writes);
    SumQueuedReplace(p.connections, id, c);
  }

  predicate WithinTotal(p: Proxy) { p.totalQueued <= p.limits.total }

  lemma {:induction false} RunStaysWithinTotal(p: Proxy, turns: seq<Event>)
    requires WithinTotal(p)
    ensures WithinTotal(Run(p, turns)) && Run(p, turns).limits == p.limits
    decreases |turns|
  {
    if turns != [] { RunStaysWithinTotal(Step(p, turns[0]), turns[1..]); }
  }

  /** In no run is more queued over all connections than the total limit. */
  lemma TotalIsLimited(limits: Limits, turns: seq<Event>)
    ensures Run(NewProxy(limits), turns).totalQueued <= limits.total
  {
    RunStaysWithinTotal(NewProxy(limits), turns);
  }

  /** An open is admitted if and only if fewer than the limit are pending, and a pending one is released once. */
  lemma OpensAreLimited(p: Proxy, chunk: nat, opening: nat)
    requires ProxyInv(p, chunk)
    ensures var p' := Step(p, Opens);
      if CountPending(p.openings) < p.limits.opens then p'.openings == p.openings + [true] && p'.pendingOpens == p.pendingOpens + 1 else p' == p
    ensures var p' := Step(p, OpenDone(opening));
      if opening < |p.openings| && p.openings[opening]
      then p'.openings == p.openings[opening := false] && p'.pendingOpens == p.pendingOpens - 1 else p' == p
  {
    if opening < |p.openings| && p.openings[opening] { CountRelease(p.openings, opening); }
  }

  // ----- The counters in place -----

  /** `Socks5Proxy`'s counters, and those its connections' closures and channels keep. */
  class Socks5Proxy {
    const limits: Limits
    var totalQueuedSocketBytes: nat
    var connections: seq<Connection>
    var pendingChannelOpens: nat
    var openings: seq<bool>

    ghost function View(): Proxy
      reads this
    {
      Proxy(limits, totalQueuedSocketBytes, connections, pendingChannelOpens, openings)
    }

    constructor (limits: Limits)
      ensures View() == NewProxy(limits)
    {
      this.limits := limits;
      totalQueuedSocketBytes, connections, pendingChannelOpens, openings := 0, [], 0, [];
    }

    method HandleSocket(window: nat)
      modifies this`connections
      ensures View() == Step(old(View()), Accept(window))
    {
      if window > 0 {
        connections := connections + [Connection(Channel(window, 0, false), 0, [], false, true, false)];
      }
    }

    method ChannelData(id: nat, length: nat)
      modifies this`totalQueuedSocketBytes, this`connections
      ensures View() == OnData(old(View()), id, length)
    {
      if id >= |connections| || length == 0 || connections[id].channel.paused { return; }
      var c := connections[id];
      var channel := c.channel.(unacknowledged := c.channel.unacknowledged + length);
      if !channel.paused && channel.unacknowledged >= channel.window { channel := channel.(paused := true); }
      connections := connections[id := c.(channel := channel)];
      EnqueueSocketWrite(id, length);
    }

    method EnqueueSocketWrite(id: nat, length: nat)
      requires id < |connections|
      modifies this`totalQueuedSocketBytes, this`connections
      ensures View() == Queue(old(View()), id, length)
    {
      var c := connections[id];
      if length == 0 || !c.writable { return; }
      if c.queued + length > limits.connection || totalQueuedSocketBytes + length > limits.total {
        connections := connections[id := c.(writable := false, overran := c.overran || c.queued + length > limits.connection)];
        return;
      }
      c := c.(queued := c.queued + length);
      totalQueuedSocketBytes := totalQueuedSocketBytes + length;
      connections := connections[id := c.(writes := c.writes + [length])];
    }

    method AcknowledgeData(id: nat)
      modifies this`connections
      ensures View() == OnWritten(old(View()), id)
    {
      if id >= |connections| || connections[id].writes == [] || connections[id].acknowledged || !connections[id].writable { return; }
      var c := connections[id];
      var channel := c.channel.(unacknowledged := Max(0, c.channel.unacknowledged - c.writes[0]));
      if channel.paused && 2 * channel.unacknowledged <= channel.window { channel := channel.(paused := false); }
      connections := connections[id := c.(channel := channel, acknowledged := true)];
    }

    method WriteSettled(id: nat)
      modifies this`totalQueuedSocketBytes, this`connections
      ensures View() == OnSettles(old(View()), id)
    {
      if id >= |connections| || connections[id].writes == [] { return; }
      var c := connections[id];
      var length := c.writes[0];
      connections := connections[id := c.(queued := Max(0, c.queued - length), writes := c.writes[1..], acknowledged := false)];
      totalQueuedSocketBytes := Max(0, totalQueuedSocketBytes - length);
    }

    method SocketDied(id: nat)
      modifies this`connections
      ensures View() == Step(old(View()), Dies(id))
    {
      if id < |connections| { connections := connections[id := connections[id].(writable := false)]; }
    }

    /** The number of the opening admitted, or nothing at the limit. */
    method AcquirePendingChannelOpen() returns (opening: Option<nat>)
      modifies this`pendingChannelOpens, this`openings
      ensures View() == OnOpens(old(View()))
      ensures opening == if |openings| > |old(openings)| then Some(|old(openings)|) else None
    {
      if limits.opens <= 0 || pendingChannelOpens >= limits.opens { return None; }
      pendingChannelOpens := pendingChannelOpens + 1;
      openings := openings + [true];
      return Some(|openings| - 1);
    }

    method ReleasePendingOpen(opening: nat)
      modifies this`pendingChannelOpens, this`openings
      ensures View() == OnOpenDone(old(View()), opening)
    {
      if opening >= |openings| || !openings[opening] { return; }
      openings := openings[opening := false];
      pendingChannelOpens := Max(0, pendingChannelOpens - 1);
    }

    method TakeTurn(e: Event)
      modifies this
      ensures View() == Step(old(View()), e)
    {
      match e
      case Accept(window) => HandleSocket(window);
      case Data(id, length) => ChannelData(id, length);
      case Written(id) => AcknowledgeData(id);
      case Settles(id) => WriteSettled(id);
      case Dies(id) => SocketDied(id);
      case Opens => var _ := AcquirePendingChannelOpen();
      case OpenDone(opening) => ReleasePendingOpen(opening);
    }
  }

  lemma {:induction false} RunLast(p: Proxy, turns: seq<Event>, last: Event)
    ensures Run(p, turns + [last]) == Step(Run(p, turns), last)
    decreases |turns|
  {
    if turns == [] {
      assert turns + [last] == [last] && [last][1..] == [];
    } else {
      assert (turns + [last])[1..] == turns[1..] + [last];
      RunLast(Step(p, turns[0]), turns[1..], last);
    }
  }

  /** Drives a new proxy through any turns; its counters are then the sums they stand for. */
  method Drive(limits: Limits, turns: seq<Event>, ghost chunk: nat) returns (proxy: Socks5Proxy)
    requires Chunked(turns, chunk) && chunk > 0
    ensures fresh(proxy) && proxy.View() == Run(NewProxy(limits), turns) && ProxyInv(proxy.View(), chunk)
    ensures proxy.totalQueuedSocketBytes == SumQueued(proxy.connections)
  {
    proxy := new Socks5Proxy(limits);
    for i := 0 to |turns|
      invariant fresh(proxy) && proxy.View() == Run(NewProxy(limits), turns[..i])
    {
      proxy.TakeTurn(turns[i]);
      RunLast(NewProxy(limits), turns[..i], turns[i]);
      assert turns[..i + 1] == turns[..i] + [turns[i]];
    }
    assert turns[..|turns|] == turns;
    RunKeeps(NewProxy(limits), turns, chunk);
  }
}
