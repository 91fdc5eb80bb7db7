/** The nonblocking flag of a tracked socket: the framework keeps the real descriptor nonblocking and shows the
    program the flag that it asked for (fcntl and ioctl hooks over FdCtx). */
module FdFlags {
  /** A flag word, as the set of its one bits. */
  type Flags = set<nat>

  /** O_NONBLOCK is 04000. */
  const NONBLOCK: nat := 11

  /** A file descriptor as the kernel keeps it. */
  class Descriptor {
    var flags: Flags
    constructor (f: Flags)
      ensures flags == f
    {
      flags := f;
    }
  }

  /** F_SETFL can change the nonblocking bit. */
  predicate Settable(settable: Flags) {
    NONBLOCK in settable
  }

  /** What F_SETFL does to the kernel's flags: only the `settable` bits change. */
  function KernelSet(settable: Flags, flags: Flags, arg: Flags): Flags {
    (flags - settable) + (arg * settable)
  }

  function With(flags: Flags, on: bool): Flags {
    if on then flags + {NONBLOCK} else flags - {NONBLOCK}
  }

  /** The other bits. */
  function Rest(flags: Flags): Flags {
    flags - {NONBLOCK}
  }

  predicate Has(flags: Flags) {
    NONBLOCK in flags
  }

  class FdCtx {
    var isSocket: bool
    var sysNonblock: bool
    var userNonblock: bool
    var isClosed: bool

    /** FdCtx::Init on a descriptor that fstat finds: a socket is made nonblocking behind the program's back. */
    constructor (settable: Flags, fd: Descriptor, socket: bool)
      requires Settable(settable)
      modifies fd
      ensures isSocket == socket == sysNonblock && !userNonblock && !isClosed
      ensures fd.flags == if socket then With(old(fd.flags), true) else old(fd.flags)
    {
      isSocket, sysNonblock := socket, socket;
      userNonblock, isClosed := false, false;
      if socket && !Has(fd.flags) {
        SetIsWith(settable, fd.flags, true);
        fd.flags := KernelSet(settable, fd.flags, With(fd.flags, true));
      }
      AlreadyWith(old(fd.flags));
    }

    ghost function View(fd: Descriptor): Hooked
      reads this, fd
    {
      Hooked(fd.flags, userNonblock, sysNonblock)
    }

    predicate Tracked()
      reads this
    {
      isSocket && !isClosed
    }
  }

  /** fcntl(fd, F_SETFL, arg); `ok` is whether the kernel accepts it. */
  method SetFl(settable: Flags, ctx: FdCtx?, fd: Descriptor, arg: Flags, ok: bool)
    modifies ctx, fd
    ensures ctx == null || !ctx.Tracked() ==>
              fd.flags == if ok then KernelSet(settable, old(fd.flags), arg) else old(fd.flags)
    ensures ctx != null ==>
              && ctx.isSocket == old(ctx.isSocket) && ctx.isClosed == old(ctx.isClosed)
              && ctx.sysNonblock == old(ctx.sysNonblock)
              && (ctx.Tracked() ==> ctx.View(fd) == Do(settable, old(ctx.View(fd)), CallSetFl(arg, ok)))
  {
    var a := arg;
    if ctx != null && !ctx.isClosed && ctx.isSocket {
      ctx.userNonblock := Has(arg);
      a := With(a, ctx.sysNonblock);
    }
    if ok {
      fd.flags := KernelSet(settable, fd.flags, a);
    }
  }

  /** fcntl(fd, F_GETFL) */
  method GetFl(ctx: FdCtx?, fd: Descriptor) returns (arg: Flags)
    ensures arg == if ctx != null && ctx.Tracked() then Shown(ctx.View(fd)) else fd.flags
  {
    arg := fd.flags;
    if ctx == null || ctx.isClosed || !ctx.isSocket {
      return;
    }
    arg := With(arg, ctx.userNonblock);
  }

  /** ioctl(fd, FIONBIO, on): noted, and passed on to the kernel as it is. */
  method Fionbio(settable: Flags, ctx: FdCtx?, fd: Descriptor, on: bool, ok: bool)
    modifies ctx, fd
    ensures fd.flags == if ok then With(old(fd.flags), on) else old(fd.flags)
    ensures ctx != null ==>
              && ctx.isSocket == old(ctx.isSocket) && ctx.isClosed == old(ctx.isClosed)
              && ctx.sysNonblock == old(ctx.sysNonblock)
              && (ctx.Tracked() ==> ctx.View(fd) == Do(settable, old(ctx.View(fd)), CallFionbio(on, ok)))
  {
    if ctx != null && !ctx.isClosed && ctx.isSocket {
      ctx.userNonblock := on;
    }
    if ok {
      fd.flags := With(fd.flags, on);
    }
  }

  // ---------------------------------------------------------------- runs

  /** A tracked socket: the kernel's flags, the flag the program asked for, and the flag the framework wants. */
  datatype Hooked = Hooked(flags: Flags, user: bool, sys: bool)

  /** One call that may change a flag, and whether the kernel accepts it. */
  datatype Call =
    | CallSetFl(arg: Flags, ok: bool)
    | CallFionbio(on: bool, ok: bool)

  /** A tracked socket, right after FdCtx::Init. */
  function Init(created: Flags): Hooked {
    Hooked(With(created, true), false, true)
  }

  function Do(settable: Flags, h: Hooked, c: Call): Hooked {
    match c
    case CallSetFl(arg, ok) =>
      Hooked(if ok then KernelSet(settable, h.flags, With(arg, h.sys)) else h.flags, Has(arg), h.sys)
    case CallFionbio(on, ok) => Hooked(if ok then With(h.flags, on) else h.flags, on, h.sys)
  }

  /** What F_GETFL shows. */
  function Shown(h: Hooked): Flags {
    With(h.flags, h.user)
  }

  function After(settable: Flags, h: Hooked, cs: seq<Call>): Hooked {
    if cs == [] then h else Do(settable, After(settable, h, cs[..|cs| - 1]), cs[|cs| - 1])
  }

  /** The same calls on a descriptor without hooks. */
  function Plain(settable: Flags, flags: Flags, c: Call): Flags {
    if !c.ok then flags
    else match c
      case CallSetFl(arg, _) => KernelSet(settable, flags, arg)
      case CallFionbio(on, _) => With(flags, on)
  }

  function PlainAfter(settable: Flags, flags: Flags, cs: seq<Call>): Flags {
    if cs == [] then flags else Plain(settable, PlainAfter(settable, flags, cs[..|cs| - 1]), cs[|cs| - 1])
  }

  function Asks(c: Call): bool {
    match c case CallSetFl(arg, _) => Has(arg) case CallFionbio(on, _) => on
  }

  /** The flag of the last call, `was` if there is none. */
  function LastAsked(cs: seq<Call>, was: bool): bool {
    if cs == [] then was else Asks(cs[|cs| - 1])
  }

  /** The flag of the last call that the kernel accepted. */
  function LastGranted(cs: seq<Call>, was: bool): bool {
    if cs == [] then was
    else if cs[|cs| - 1].ok then Asks(cs[|cs| - 1]) else LastGranted(cs[..|cs| - 1], was)
  }

  /** No accepted FIONBIO 0 since the last accepted F_SETFL or FIONBIO 1. */
  function KeptNonblock(cs: seq<Call>): bool {
    if cs == [] then true
    else
      var c := cs[|cs| - 1];
      if !c.ok then KeptNonblock(cs[..|cs| - 1]) else c.CallSetFl? || c.on
  }

  // Facts about the bits.

  /** The kernel takes the settable bits from the argument and keeps the others. */
  lemma KernelKeeps(settable: Flags, flags: Flags, arg: Flags, x: nat)
    ensures x in KernelSet(settable, flags, arg) <==> if x in settable then x in arg else x in flags
  {
  }

  /** Only the nonblocking bit is forced. */
  lemma WithExactly(flags: Flags, on: bool, x: nat)
    ensures x in With(flags, on) <==> if x == NONBLOCK then on else x in flags
  {
  }

  lemma SetIsWith(settable: Flags, flags: Flags, on: bool)
    requires Settable(settable)
    ensures KernelSet(settable, flags, With(flags, on)) == With(flags, on)
  {
  }

  lemma AlreadyWith(flags: Flags)
    ensures Has(flags) ==> With(flags, true) == flags
    ensures Has(With(flags, true)) && !Has(With(flags, false))
  {
  }

  lemma SameElsewhere(a: Flags, b: Flags)
    requires Rest(a) == Rest(b)
    ensures forall x :: x != NONBLOCK ==> (x in a <==> x in b)
  {
    forall x | x != NONBLOCK
      ensures x in a <==> x in b
    {
      assert x in a <==> x in Rest(a);
      assert x in b <==> x in Rest(b);
    }
  }

  lemma SameBits(a: Flags, b: Flags, user: bool)
    requires Rest(a) == Rest(b)
    ensures With(a, user) == b <==> user == Has(b)
  {
    SameElsewhere(a, b);
    assert NONBLOCK in With(a, user) <==> user;
  }

  lemma SetBits(settable: Flags, a: Flags, b: Flags, arg: Flags)
    requires Settable(settable) && Rest(a) == Rest(b)
    ensures Rest(KernelSet(settable, a, With(arg, true))) == Rest(KernelSet(settable, b, arg))
    ensures Has(KernelSet(settable, b, arg)) == Has(arg) && Has(KernelSet(settable, a, With(arg, true)))
  {
    SameElsewhere(a, b);
  }

  lemma WithBits(a: Flags, b: Flags, on: bool)
    requires Rest(a) == Rest(b)
    ensures Rest(With(a, on)) == Rest(With(b, on)) && Has(With(a, on)) == Has(With(b, on)) == on
  {
    SameElsewhere(a, b);
  }

  /** Both descriptors agree on every other bit, and each nonblocking bit is the one the history says. */
  lemma {:induction false} RunBits(settable: Flags, created: Flags, cs: seq<Call>)
    requires Settable(settable)
    ensures var h := After(settable, Init(created), cs);
            var p := PlainAfter(settable, created, cs);
            && Rest(h.flags) == Rest(p) && h.sys
            && h.user == LastAsked(cs, false) && Has(p) == LastGranted(cs, Has(created))
            && Has(h.flags) == KeptNonblock(cs)
  {
    if cs == [] {
      InitBits(created);
    } else {
      var n := |cs| - 1;
      RunBits(settable, created, cs[..n]);
      StepBits(settable, After(settable, Init(created), cs[..n]), PlainAfter(settable, created, cs[..n]), cs[n]);
    }
  }

  lemma InitBits(created: Flags)
    ensures Rest(With(created, true)) == Rest(created) && Has(With(created, true))
  {
  }

  lemma StepBits(settable: Flags, h: Hooked, p: Flags, c: Call)
    requires Settable(settable) && Rest(h.flags) == Rest(p) && h.sys
    ensures Rest(Do(settable, h, c).flags) == Rest(Plain(settable, p, c))
    ensures Do(settable, h, c).user == Asks(c) && Do(settable, h, c).sys
    ensures Has(Plain(settable, p, c)) == if c.ok then Asks(c) else Has(p)
    ensures Has(Do(settable, h, c).flags) == if c.ok then c.CallSetFl? || c.on else Has(h.flags)
  {
    match c
    case CallSetFl(arg, _) => SetBits(settable, h.flags, p, arg);
    case CallFionbio(on, _) => WithBits(h.flags, p, on);
  }

  /** After any calls, F_GETFL shows what it would show without hooks exactly when the last flag asked for is the
      last one granted (a fresh descriptor counts as having been asked for blocking). */
  lemma ShownIsPlain(settable: Flags, created: Flags, cs: seq<Call>)
    requires Settable(settable)
    ensures Shown(After(settable, Init(created), cs)) == PlainAfter(settable, created, cs)
            <==> LastAsked(cs, false) == LastGranted(cs, Has(created))
  {
    RunBits(settable, created, cs);
    SameBits(After(settable, Init(created), cs).flags, PlainAfter(settable, created, cs),
             After(settable, Init(created), cs).user);
  }

  /** So if every call succeeds, the hooks cannot be told apart at any point of the run exactly when the socket was
      created blocking. */
  lemma Transparent(settable: Flags, created: Flags, cs: seq<Call>)
    requires Settable(settable) && forall i :: 0 <= i < |cs| ==> cs[i].ok
    ensures (forall k :: 0 <= k <= |cs| ==>
               Shown(After(settable, Init(created), cs[..k])) == PlainAfter(settable, created, cs[..k]))
            <==> !Has(created)
  {
    forall k | 0 <= k <= |cs|
      ensures Shown(After(settable, Init(created), cs[..k])) == PlainAfter(settable, created, cs[..k])
              <==> k > 0 || !Has(created)
    {
      ShownIsPlain(settable, created, cs[..k]);
      assert k > 0 ==> cs[..k][k - 1] == cs[k - 1];
    }
    if Has(created) {
      assert Shown(After(settable, Init(created), cs[..0])) != PlainAfter(settable, created, cs[..0]);
    }
  }

  /** The real descriptor is nonblocking throughout, unless an accepted FIONBIO 0 was passed on. */
  lemma StaysNonblocking(settable: Flags, created: Flags, cs: seq<Call>)
    requires Settable(settable)
    ensures Has(After(settable, Init(created), cs).flags) <==> KeptNonblock(cs)
    ensures (forall i :: 0 <= i < |cs| ==> cs[i].CallSetFl?) ==> KeptNonblock(cs)
  {
    RunBits(settable, created, cs);
    if forall i :: 0 <= i < |cs| ==> cs[i].CallSetFl? {
      OnlySetFl(cs);
    }
  }

  lemma {:induction false} OnlySetFl(cs: seq<Call>)
    requires forall i :: 0 <= i < |cs| ==> cs[i].CallSetFl?
    ensures KeptNonblock(cs)
  {
    if cs != [] {
      OnlySetFl(cs[..|cs| - 1]);
    }
  }
}
