/**
 How a runner pool hands TCP ports to its processes: a cursor that only moves
 forward, reuse of a process's port when it is respawned, and bounded retries.

 Whether a port is free, a process can be spawned and its socket answers is up to
 the operating system.
 */
module PoolSockets {
  import opened Wrappers
  import opened Integers

  const REUSE_SOCKET_MAX_ATTEMPTS: nat := 5

  type Port = nat

  /** `next_tcp_socket` at cursor `c`: the offset is cut to 32 bits and added in 32 bits. */
  function PortAt(base: Port, c: nat): Option<Port> {
    var port := (base + c % U32) % U32;
    if port > U16_MAX then None else Some(port)
  }

  /** The port is not below the base and was not handed out before. */
  ghost predicate IsFresh(base: Port, c: nat) {
    var port := PortAt(base, c);
    port.Some? ==> base <= port.value <= U16_MAX && forall k :: 0 <= k < c ==> PortAt(base, k) != port
  }

  /** Ports are fresh exactly until the 32-bit sum wraps around. */
  lemma PortsAreFresh(base: Port, c: nat)
    requires 0 < base <= U16_MAX
    ensures IsFresh(base, c) <==> c < U32 - base || PortAt(base, c) == None
  {
    if c < U32 - base {
      SmallSum(base, c);
      forall k | 0 <= k < c ensures PortAt(base, c).Some? ==> PortAt(base, k) != PortAt(base, c) {
        SmallSum(base, k);
      }
    } else if PortAt(base, c).Some? {
      RepeatsBefore(base, c);
    }
  }

  lemma SmallSum(base: Port, c: nat)
    requires base + c < U32
    ensures PortAt(base, c) == if base + c > U16_MAX then None else Some(base + c)
  {}

  /** Beyond the wrap-around a port was handed out before, or is below the base. */
  lemma RepeatsBefore(base: Port, c: nat)
    requires 0 < base <= U16_MAX && U32 - base <= c && PortAt(base, c).Some?
    ensures PortAt(base, c).value < base || (c % U32 < c && PortAt(base, c % U32) == PortAt(base, c))
  {
    var offset := c % U32;
    if base + offset < U32 {
      assert offset < c && offset % U32 == offset;
    } else {
      assert (base + offset) % U32 == base + offset - U32;
    }
  }

  datatype Process = Process(port: Port, alive: bool)

  datatype PoolError = PoolSizeZero | RangeTooSmall | PortsExhausted | PortTaken | SpawnFailed | ConnectFailed

  predicate DistinctPorts(ps: seq<Process>) {
    forall i, k :: 0 <= i < k < |ps| ==> ps[i].port != ps[k].port
  }

  /** As long as the cursor has not come near its wrap-around, the processes have
      ports that were handed out, each to one of them. */
  ghost predicate Orderly(base: Port, cursor: nat, ps: seq<Process>) {
    cursor <= U32 - base ==>
      DistinctPorts(ps) && forall i :: 0 <= i < |ps| ==> base <= ps[i].port <= U16_MAX && ps[i].port < base + cursor
  }

  /** No handed-out port has passed the last one. */
  predicate InRange(base: Port, cursor: nat) {
    base + cursor <= U16_MAX + 1
  }

  class SocketRunnerPool {
    const base: Port
    const poolSize: nat
    const external: bool
    var cursor: nat
    var processes: seq<Process>

    ghost predicate Valid()
      reads this
    {
      0 < base <= U16_MAX && 0 < poolSize && Orderly(base, cursor, processes)
    }

    constructor (base: Port, poolSize: nat, external: bool)
      requires 0 < base <= U16_MAX && 0 < poolSize
      ensures Valid() && this.base == base && this.poolSize == poolSize && this.external == external
      ensures cursor == 0 && processes == []
    {
      this.base, this.poolSize, this.external := base, poolSize, external;
      cursor, processes := 0, [];
    }

    /** `new`: the range check, then the first start; a failed start closes the pool. */
    static method New(base: Port, poolSize: nat, external: bool) returns (result: Result<SocketRunnerPool, PoolError>)
      requires 0 < base <= U16_MAX
      ensures result.Ok? ==> fresh(result.value) && result.value.Valid() && |result.value.processes| == poolSize
      ensures result.Ok? ==> result.value.base == base && InRange(base, result.value.cursor)
      ensures result.Ok? ==>
                && DistinctPorts(result.value.processes)
                && forall i :: 0 <= i < poolSize ==> base <= result.value.processes[i].port <= U16_MAX
      ensures external && 0 < poolSize && base + poolSize - 1 <= U16_MAX ==>
                result.Ok? && forall i :: 0 <= i < poolSize ==> result.value.processes[i].port == base + i
    {
      if poolSize == 0 { return Err(PoolSizeZero); }
      var cut := poolSize % U32;
      var maxPort := (base + if cut == 0 then 0 else cut - 1) % U32;
      if maxPort > U16_MAX { return Err(RangeTooSmall); }
      var pool := new SocketRunnerPool(base, poolSize, external);
      var started := pool.EnsureStarted();
      if started.Err? {
        pool.Close();
        return Err(started.error);
      }
      return Ok(pool);
    }

    method NextTcpSocket() returns (port: Option<Port>)
      requires Valid()
      modifies this`cursor
      ensures Valid() && cursor == old(cursor) + 1
      ensures port == PortAt(base, old(cursor))
      ensures InRange(base, old(cursor)) && port.Some? ==> InRange(base, cursor)
    {
      port := PortAt(base, cursor);
      cursor := cursor + 1;
    }

    /** `spawn_process`: with a port to reuse, up to five looks at whether it is free
        and one try to connect; else up to pool-size tries, each on a new port. */
    method SpawnProcess(reuse: Option<Port>) returns (result: Result<Port, PoolError>, attempts: nat)
      requires Valid()
      modifies this`cursor
      ensures Valid()
      ensures attempts <= if reuse.Some? then REUSE_SOCKET_MAX_ATTEMPTS else poolSize
      ensures reuse.Some? ==> cursor == old(cursor)
      ensures reuse.None? ==>
                cursor == old(cursor) + attempts + if result in {Err(PortTaken), Err(ConnectFailed)} then 0 else 1
      ensures result == Err(PortsExhausted) ==> reuse.None? && PortAt(base, cursor - 1) == None
      ensures result == Err(PortTaken) ==> attempts == if reuse.Some? then REUSE_SOCKET_MAX_ATTEMPTS else poolSize
      ensures result == Err(ConnectFailed) ==> reuse.Some? || attempts == poolSize
      ensures result.Err? ==> result.error in {PortsExhausted, PortTaken, SpawnFailed, ConnectFailed}
      ensures InRange(base, old(cursor)) && result != Err(PortsExhausted) ==> InRange(base, cursor)
      ensures result.Ok? && reuse.Some? ==> result.value == reuse.value
      ensures result.Ok? && reuse.None? ==> old(cursor) < cursor && PortAt(base, cursor - 1) == Some(result.value)
    {
      var maxAttempts := if reuse.Some? then REUSE_SOCKET_MAX_ATTEMPTS else if poolSize < 1 then 1 else poolSize;
      attempts := 0;
      while true
        invariant attempts < maxAttempts && Valid()
        invariant cursor == old(cursor) + if reuse.Some? then 0 else attempts
        invariant InRange(base, old(cursor)) ==> InRange(base, cursor)
        decreases maxAttempts - attempts
      {
        var port: Port;
        if reuse.Some? {
          port := reuse.value;
        } else {
          var next := NextTcpSocket();
          if next.None? { return Err(PortsExhausted), attempts; }
          port := next.value;
        }
        var free: bool := *;
        if !free {
          attempts := attempts + 1;
          if attempts >= maxAttempts { return Err(PortTaken), attempts; }
          continue;
        }
        var spawned: bool := *;
        if !spawned { return Err(SpawnFailed), attempts; }
        var connected: bool := *;
        if connected { return Ok(port), attempts; }
        attempts := attempts + 1;
        if reuse.Some? || attempts >= maxAttempts { return Err(ConnectFailed), attempts; }
      }
    }

    /** The external half of `ensure_started`: a failure leaves the ports listed so far. */
    method ListExternal() returns (result: Result<(), PoolError>)
      requires Valid() && external && processes == []
      modifies this
      ensures Valid() && old(cursor) <= cursor <= old(cursor) + poolSize
      ensures result.Ok? ==> |processes| == poolSize
      ensures InRange(base, old(cursor)) && result.Ok? ==> InRange(base, cursor)
      ensures cursor <= U32 - base ==>
                && (result.Ok? <==> base + old(cursor) + poolSize - 1 <= U16_MAX)
                && forall i :: 0 <= i < |processes| ==> processes[i] == Process(base + old(cursor) + i, false)
    {
      var n := 0;
      while n < poolSize
        invariant 0 <= n <= poolSize && |processes| == n && Valid() && cursor == old(cursor) + n
        invariant InRange(base, old(cursor)) ==> InRange(base, cursor)
        invariant cursor <= U32 - base ==>
                    && (0 < n ==> base + old(cursor) + n - 1 <= U16_MAX)
                    && forall i :: 0 <= i < n ==> processes[i] == Process(base + old(cursor) + i, false)
      {
        PortsBelow(base, cursor);
        var port := NextTcpSocket();
        if port.None? { return Err(PortsExhausted); }
        processes := processes + [Process(port.value, false)];
        n := n + 1;
      }
      return Ok(());
    }

    /** The other half: a failure ends the processes already started. */
    method SpawnAll() returns (result: Result<(), PoolError>)
      requires Valid() && !external && processes == []
      modifies this
      ensures Valid() && old(cursor) <= cursor
      ensures result.Ok? ==> |processes| == poolSize && forall i :: 0 <= i < poolSize ==> processes[i].alive
      ensures result.Err? ==> processes == []
      ensures InRange(base, old(cursor)) && result.Ok? ==> InRange(base, cursor)
    {
      var n := 0;
      while n < poolSize
        invariant 0 <= n <= poolSize && |processes| == n && Valid() && old(cursor) <= cursor
        invariant InRange(base, old(cursor)) ==> InRange(base, cursor)
        invariant forall i :: 0 <= i < n ==> processes[i].alive
      {
        var spawned, _ := SpawnProcess(None);
        if spawned.Err? {
          processes := [];
          return Err(spawned.error);
        }
        PortsBelow(base, cursor - 1);
        processes := processes + [Process(spawned.value, true)];
        n := n + 1;
      }
      return Ok(());
    }

    /** `ensure_started` */
    method EnsureStarted() returns (result: Result<(), PoolError>)
      requires Valid()
      modifies this
      ensures Valid() && old(cursor) <= cursor
      ensures old(processes) != [] ==> result.Ok? && processes == old(processes) && cursor == old(cursor)
      ensures old(processes) == [] && result.Ok? ==> |processes| == poolSize
      ensures InRange(base, old(cursor)) && result.Ok? ==> InRange(base, cursor)
      ensures old(processes) == [] && !external ==>
                if result.Ok? then forall i :: 0 <= i < poolSize ==> processes[i].alive else processes == []
      ensures old(processes) == [] && external && old(cursor) + poolSize <= U32 - base ==>
                && (result.Ok? <==> base + old(cursor) + poolSize - 1 <= U16_MAX)
                && forall i :: 0 <= i < |processes| ==> processes[i] == Process(base + old(cursor) + i, false)
    {
      if processes != [] { return Ok(()); }
      if external {
        result := ListExternal();
      } else {
        result := SpawnAll();
      }
    }

    /** `terminate`: the process ends and keeps its port. */
    method Terminate(i: nat)
      requires Valid() && i < |processes|
      modifies this`processes
      ensures Valid() && processes == old(processes)[i := old(processes)[i].(alive := false)]
    {
      processes := processes[i := processes[i].(alive := false)];
    }

    /** `respawn`: on its old port if that works, else on a new one; when both fail the
        process stays down on its old port. */
    method Respawn(i: nat) returns (result: Result<(), PoolError>)
      requires Valid() && i < |processes|
      modifies this
      ensures Valid() && old(cursor) <= cursor && |processes| == |old(processes)|
      ensures forall k :: 0 <= k < |processes| && k != i ==> processes[k] == old(processes)[k]
      ensures external ==> processes == old(processes) && result.Ok?
      ensures InRange(base, old(cursor)) && result.Ok? ==> InRange(base, cursor)
      ensures !external ==> processes[i].alive == result.Ok?
      ensures !external && (result.Err? || cursor == old(cursor)) ==> processes[i].port == old(processes)[i].port
    {
      if external { return Ok(()); }
      var oldPort := processes[i].port;
      Terminate(i);
      var reused, _ := SpawnProcess(Some(oldPort));
      if reused.Ok? {
        processes := processes[i := Process(reused.value, true)];
        return Ok(());
      }
      var replacement, _ := SpawnProcess(None);
      match replacement {
        case Err(error) => return Err(error);
        case Ok(port) =>
          PortsBelow(base, cursor - 1);
          processes := processes[i := Process(port, true)];
          return Ok(());
      }
    }

    /** The cursor is not set back: a restarted pool uses new ports. */
    method Close()
      requires Valid()
      modifies this`processes
      ensures Valid() && processes == []
    {
      processes := [];
    }
  }

  lemma PortsBelow(base: Port, c: nat)
    requires 0 < base <= U16_MAX
    ensures c < U32 - base && PortAt(base, c).Some? ==> PortAt(base, c).value == base + c
  {}
}
