/**
 * The part of libmodbus the program calls, as a foreign library whose
 * outcomes are not known in advance. Each primitive appends a record of the
 * call to a ghost trace, may change the global `errno`, and returns a result
 * the program has to cope with whatever it is. The only facts assumed about
 * the results are the request-size limits libmodbus checks before sending
 * anything (a request larger than the Modbus limit fails with -1) and that a
 * reply never overruns the buffer size passed in.
 *
 * A context is identified by a number; `live` holds the contexts created and
 * not yet freed, and every primitive other than the constructors demands a
 * live context, so any use after free or double free would fail to verify.
 *
 * The library hands every frame it sends or receives to the program's
 * traffic hooks (busMonitorRawRequestData and busMonitorRawResponseData).
 * A primitive that exchanges frames therefore returns them as `traffic`, in
 * the order they crossed the line and otherwise unconstrained, so that the
 * caller can run the hooks on them; a request refused before sending has
 * none.
 */
module Libmodbus {
  import Text

  newtype Byte = x: int | 0 <= x < 0x100
  newtype Word = x: int | 0 <= x < 0x1_0000

  // Request limits of the Modbus Application Protocol Specification V1.1b3,
  // as libmodbus enforces them
  const MaxReadBits: int := 2000
  const MaxReadRegisters: int := 125
  const MaxWriteBits: int := 1968
  const MaxWriteRegisters: int := 123
  const MaxPduLength: int := 253

  /** A frame handed to a traffic hook: a request sent or a reply received. */
  datatype Frame = Request(bytes: seq<Byte>) | Response(bytes: seq<Byte>)

  /** One call into the library, with the arguments the program passed. */
  datatype Call =
    | NewRtu(device: string, baud: int, parity: char, dataBits: int, stopBits: int, rts: int, created: Text.Option<nat>)
    | NewTcp(ip: string, port: int, created: Text.Option<nat>)
    | SetSlave(ctx: nat, slave: int)
    | Connect(ctx: nat)
    | Close(ctx: nat)
    | Free(ctx: nat)
    | SetErrorRecoveryProtocol(ctx: nat)
    | SetResponseTimeout(ctx: nat, seconds: int, microseconds: int)
    | ReadBits(ctx: nat, addr: int, nb: int)
    | ReadInputBits(ctx: nat, addr: int, nb: int)
    | ReadRegisters(ctx: nat, addr: int, nb: int)
    | ReadInputRegisters(ctx: nat, addr: int, nb: int)
    | WriteBit(ctx: nat, addr: int, status: int)
    | WriteRegister(ctx: nat, addr: int, value: Word)
    | WriteBits(ctx: nat, addr: int, nb: int, bits: seq<Byte>)
    | WriteRegisters(ctx: nat, addr: int, nb: int, words: seq<Word>)
    | Flush(ctx: nat)
    | ReportSlaveId(ctx: nat, maxDest: int)

  class Library {
    ghost var live: set<nat>
    ghost var calls: seq<Call>
    var next: nat
    var errno: int
    /** modbus_strerror, the library's own error text. */
    const strerror: int -> string

    ghost predicate Valid()
      reads this
    {
      forall c :: c in live ==> c < next
    }

    constructor(strerror: int -> string)
      ensures Valid() && live == {} && calls == [] && this.strerror == strerror
    {
      this.strerror := strerror;
      live := {};
      calls := [];
      next := 0;
      errno := 0;
    }

    /** modbus_new_rtu: a new context, or none when the arguments are refused. */
    method NewRtu(device: string, baud: int, parity: char, dataBits: int, stopBits: int, rts: int)
      returns (ctx: Text.Option<nat>)
      requires Valid()
      modifies this`live, this`calls, this`next, this`errno
      ensures Valid()
      ensures ctx.Some? ==> ctx.value !in old(live) && live == old(live) + {ctx.value}
      ensures ctx.None? ==> live == old(live)
      ensures calls == old(calls) + [Call.NewRtu(device, baud, parity, dataBits, stopBits, rts, ctx)]
    {
      var created: bool := *;
      errno := *;
      if created {
        ctx := Text.Some(next);
        live := live + {next};
        next := next + 1;
      } else {
        ctx := Text.None;
      }
      calls := calls + [Call.NewRtu(device, baud, parity, dataBits, stopBits, rts, ctx)];
    }

    /** modbus_new_tcp. */
    method NewTcp(ip: string, port: int) returns (ctx: Text.Option<nat>)
      requires Valid()
      modifies this`live, this`calls, this`next, this`errno
      ensures Valid()
      ensures ctx.Some? ==> ctx.value !in old(live) && live == old(live) + {ctx.value}
      ensures ctx.None? ==> live == old(live)
      ensures calls == old(calls) + [Call.NewTcp(ip, port, ctx)]
    {
      var created: bool := *;
      errno := *;
      if created {
        ctx := Text.Some(next);
        live := live + {next};
        next := next + 1;
      } else {
        ctx := Text.None;
      }
      calls := calls + [Call.NewTcp(ip, port, ctx)];
    }

    method SetSlave(ctx: nat, slave: int) returns (rc: int)
      requires ctx in live
      modifies this`calls, this`errno
      ensures calls == old(calls) + [Call.SetSlave(ctx, slave)]
    {
      rc := *;
      errno := *;
      calls := calls + [Call.SetSlave(ctx, slave)];
    }

    method Connect(ctx: nat) returns (rc: int)
      requires ctx in live
      modifies this`calls, this`errno
      ensures calls == old(calls) + [Call.Connect(ctx)]
    {
      rc := *;
      errno := *;
      calls := calls + [Call.Connect(ctx)];
    }

    method Close(ctx: nat)
      requires ctx in live
      modifies this`calls, this`errno
      ensures calls == old(calls) + [Call.Close(ctx)]
    {
      errno := *;
      calls := calls + [Call.Close(ctx)];
    }

    /** modbus_free: the context is gone and may not be used again. */
    method Free(ctx: nat)
      requires ctx in live
      modifies this`calls, this`live
      ensures live == old(live) - {ctx}
      ensures calls == old(calls) + [Call.Free(ctx)]
    {
      live := live - {ctx};
      calls := calls + [Call.Free(ctx)];
    }

    method SetErrorRecoveryProtocol(ctx: nat)
      requires ctx in live
      modifies this`calls, this`errno
      ensures calls == old(calls) + [Call.SetErrorRecoveryProtocol(ctx)]
    {
      errno := *;
      calls := calls + [Call.SetErrorRecoveryProtocol(ctx)];
    }

    method SetResponseTimeout(ctx: nat, seconds: int, microseconds: int)
      requires ctx in live
      modifies this`calls, this`errno
      ensures calls == old(calls) + [Call.SetResponseTimeout(ctx, seconds, microseconds)]
    {
      errno := *;
      calls := calls + [Call.SetResponseTimeout(ctx, seconds, microseconds)];
    }

    /** modbus_read_bits into `dest`; more than 2000 bits are refused. */
    method ReadBits(ctx: nat, addr: int, nb: int, dest: array<Byte>) returns (rc: int, traffic: seq<Frame>)
      requires ctx in live && dest.Length >= MaxReadBits
      modifies this`calls, this`errno, dest
      ensures nb > MaxReadBits ==> rc == -1 && traffic == []
      ensures calls == old(calls) + [Call.ReadBits(ctx, addr, nb)]
    {
      rc := *;
      traffic := *;
      if nb > MaxReadBits { rc, traffic := -1, []; }
      errno := *;
      calls := calls + [Call.ReadBits(ctx, addr, nb)];
    }

    method ReadInputBits(ctx: nat, addr: int, nb: int, dest: array<Byte>) returns (rc: int, traffic: seq<Frame>)
      requires ctx in live && dest.Length >= MaxReadBits
      modifies this`calls, this`errno, dest
      ensures nb > MaxReadBits ==> rc == -1 && traffic == []
      ensures calls == old(calls) + [Call.ReadInputBits(ctx, addr, nb)]
    {
      rc := *;
      traffic := *;
      if nb > MaxReadBits { rc, traffic := -1, []; }
      errno := *;
      calls := calls + [Call.ReadInputBits(ctx, addr, nb)];
    }

    /** modbus_read_registers into `dest`; more than 125 registers are refused. */
    method ReadRegisters(ctx: nat, addr: int, nb: int, dest: array<Word>) returns (rc: int, traffic: seq<Frame>)
      requires ctx in live && dest.Length >= MaxReadRegisters
      modifies this`calls, this`errno, dest
      ensures nb > MaxReadRegisters ==> rc == -1 && traffic == []
      ensures calls == old(calls) + [Call.ReadRegisters(ctx, addr, nb)]
    {
      rc := *;
      traffic := *;
      if nb > MaxReadRegisters { rc, traffic := -1, []; }
      errno := *;
      calls := calls + [Call.ReadRegisters(ctx, addr, nb)];
    }

    method ReadInputRegisters(ctx: nat, addr: int, nb: int, dest: array<Word>) returns (rc: int, traffic: seq<Frame>)
      requires ctx in live && dest.Length >= MaxReadRegisters
      modifies this`calls, this`errno, dest
      ensures nb > MaxReadRegisters ==> rc == -1 && traffic == []
      ensures calls == old(calls) + [Call.ReadInputRegisters(ctx, addr, nb)]
    {
      rc := *;
      traffic := *;
      if nb > MaxReadRegisters { rc, traffic := -1, []; }
      errno := *;
      calls := calls + [Call.ReadInputRegisters(ctx, addr, nb)];
    }

    method WriteBit(ctx: nat, addr: int, status: int) returns (rc: int, traffic: seq<Frame>)
      requires ctx in live
      modifies this`calls, this`errno
      ensures calls == old(calls) + [Call.WriteBit(ctx, addr, status)]
    {
      rc, traffic := *, *;
      errno := *;
      calls := calls + [Call.WriteBit(ctx, addr, status)];
    }

    method WriteRegister(ctx: nat, addr: int, value: Word) returns (rc: int, traffic: seq<Frame>)
      requires ctx in live
      modifies this`calls, this`errno
      ensures calls == old(calls) + [Call.WriteRegister(ctx, addr, value)]
    {
      rc, traffic := *, *;
      errno := *;
      calls := calls + [Call.WriteRegister(ctx, addr, value)];
    }

    /** modbus_write_bits of the first `nb` entries of `src`; more than 1968 bits are refused. */
    method WriteBits(ctx: nat, addr: int, nb: int, src: array<Byte>) returns (rc: int, traffic: seq<Frame>)
      requires ctx in live && 0 <= nb <= src.Length
      modifies this`calls, this`errno
      ensures nb > MaxWriteBits ==> rc == -1 && traffic == []
      ensures calls == old(calls) + [Call.WriteBits(ctx, addr, nb, src[..nb])]
    {
      rc := *;
      traffic := *;
      if nb > MaxWriteBits { rc, traffic := -1, []; }
      errno := *;
      calls := calls + [Call.WriteBits(ctx, addr, nb, src[..nb])];
    }

    /** modbus_write_registers; more than 123 registers are refused. */
    method WriteRegisters(ctx: nat, addr: int, nb: int, src: array<Word>) returns (rc: int, traffic: seq<Frame>)
      requires ctx in live && 0 <= nb <= src.Length
      modifies this`calls, this`errno
      ensures nb > MaxWriteRegisters ==> rc == -1 && traffic == []
      ensures calls == old(calls) + [Call.WriteRegisters(ctx, addr, nb, src[..nb])]
    {
      rc := *;
      traffic := *;
      if nb > MaxWriteRegisters { rc, traffic := -1, []; }
      errno := *;
      calls := calls + [Call.WriteRegisters(ctx, addr, nb, src[..nb])];
    }

    method Flush(ctx: nat)
      requires ctx in live
      modifies this`calls, this`errno
      ensures calls == old(calls) + [Call.Flush(ctx)]
    {
      errno := *;
      calls := calls + [Call.Flush(ctx)];
    }

    /** modbus_report_slave_id: writes at most `maxDest` bytes of the reply into `dest`. */
    method ReportSlaveId(ctx: nat, maxDest: int, dest: array<Byte>) returns (rc: int, traffic: seq<Frame>)
      requires ctx in live && 0 <= maxDest <= dest.Length
      modifies this`calls, this`errno, dest
      ensures forall i :: maxDest <= i < dest.Length ==> dest[i] == old(dest[i])
      ensures calls == old(calls) + [Call.ReportSlaveId(ctx, maxDest)]
    {
      rc, traffic := *, *;
      errno := *;
      calls := calls + [Call.ReportSlaveId(ctx, maxDest)];
    }
  }
}
