/** The capability classifier: what a capability names, where that object
    lives, how large it is, and whether two capabilities name overlapping or
    identical objects. Everything here is a total function of the tag. */
module ObjectType {
  import opened Words

  // Object sizes of the 64-bit RISC-V kernel with budgeted scheduling (libsel4 constants).
  const SLOT_BITS: nat := 5          // seL4_SlotBits
  const TCB_BITS: nat := 10          // seL4_TCBBits
  const ENDPOINT_BITS: nat := 4      // seL4_EndpointBits
  const NOTIFICATION_BITS: nat := 6  // seL4_NotificationBits
  const REPLY_BITS: nat := 5         // seL4_ReplyBits
  const WORD_RADIX: nat := 6         // log2 of the word size in bits

  /** `ZombieType_ZombieTCB`, that is `BIT(wordRadix)`. */
  const ZOMBIE_TYPE_TCB: nat := 64

  /** `ZombieType_ZombieCNode(n)`, that is `n & MASK(wordRadix)`. */
  function ZombieCNodeRadix(zombieType: nat): nat
  {
    zombieType % 64
  }

  /** `cap_t`: one constructor per tag the generic kernel knows, plus every
      architecture-defined capability in `ArchCap`. */
  datatype Cap =
    | NullCap
    | UntypedCap(capPtr: Word, capBlockSize: nat)
    | EndpointCap(capEPPtr: Ptr, capEPBadge: Word, capCanSend: bool, capCanReceive: bool,
                  capCanGrant: bool, capCanGrantReply: bool)
    | NotificationCap(capNtfnPtr: Ptr, capNtfnBadge: Word, capNtfnCanSend: bool, capNtfnCanReceive: bool)
    | ReplyCap(capReplyPtr: Ptr, capReplyCanGrant: bool)
    | CNodeCap(capCNodePtr: Ptr, capCNodeRadix: nat, capCNodeGuardSize: nat, capCNodeGuard: Word)
    | ThreadCap(capTCBPtr: Ptr)
    | IrqControlCap
    | IrqHandlerCap(capIRQ: nat)
    | ZombieCap(capZombiePtr: Ptr, capZombieType: nat)
    | DomainCap
    | SchedContextCap(capSCPtr: Ptr, capSCSizeBits: nat)
    | SchedControlCap(core: nat)
    | ArchCap(archTag: nat, archWords: seq<Word>)

  /** `isArchCap`. */
  predicate IsArchCap(c: Cap)
  {
    c.ArchCap?
  }

  /** The architecture's own classifier (`Arch_sameRegionAs`, `Arch_sameObjectAs`,
      `cap_get_archCapSizeBits`, `cap_get_archCapIsPhysical`, `cap_get_archCapPtr`),
      left uninterpreted: every result below holds for every choice of them. */
  datatype ArchOps = ArchOps(
    sameRegionAs: (Cap, Cap) -> bool,
    sameObjectAs: (Cap, Cap) -> bool,
    sizeBits: Cap -> nat,
    isPhysical: Cap -> bool,
    ptr: Cap -> Word)

  /** `cap_get_capSizeBits`. */
  function CapSizeBits(arch: ArchOps, c: Cap): nat
  {
    match c
    case UntypedCap(_, blockSize) => blockSize
    case EndpointCap(_, _, _, _, _, _) => ENDPOINT_BITS
    case NotificationCap(_, _, _, _) => NOTIFICATION_BITS
    case CNodeCap(_, radix, _, _) => radix + SLOT_BITS
    case ThreadCap(_) => TCB_BITS
    case ZombieCap(_, zombieType) =>
      if zombieType == ZOMBIE_TYPE_TCB then TCB_BITS else ZombieCNodeRadix(zombieType) + SLOT_BITS
    case NullCap => 0
    case DomainCap => 0
    case ReplyCap(_, _) => REPLY_BITS
    case IrqControlCap => 0
    case SchedControlCap(_) => 0
    case IrqHandlerCap(_) => 0
    case SchedContextCap(_, sizeBits) => sizeBits
    case ArchCap(_, _) => arch.sizeBits(c)
  }

  /** `cap_get_capIsPhysical`: whether the capability has memory behind it.
      The null capability is not among the generic cases and goes to the
      architecture's function, as every architecture capability does. */
  function CapIsPhysical(arch: ArchOps, c: Cap): bool
  {
    match c
    case UntypedCap(_, _) => true
    case EndpointCap(_, _, _, _, _, _) => true
    case NotificationCap(_, _, _, _) => true
    case CNodeCap(_, _, _, _) => true
    case ThreadCap(_) => true
    case SchedContextCap(_, _) => true
    case ZombieCap(_, _) => true
    case DomainCap => false
    case ReplyCap(_, _) => true
    case IrqControlCap => false
    case SchedControlCap(_) => false
    case IrqHandlerCap(_) => false
    case NullCap => arch.isPhysical(c)
    case ArchCap(_, _) => arch.isPhysical(c)
  }

  /** `cap_get_capPtr`. A thread capability yields the first slot of the TCB
      object (`TCB_PTR_CTE_PTR(p, 0)`, the `2^TCB_BITS`-aligned base). */
  function CapPtr(arch: ArchOps, c: Cap): Word
  {
    match c
    case UntypedCap(p, _) => p
    case EndpointCap(p, _, _, _, _, _) => p
    case NotificationCap(p, _, _, _) => p
    case CNodeCap(p, _, _, _) => p
    case ThreadCap(p) => AlignDown(p, TCB_BITS)
    case ZombieCap(p, _) => p
    case DomainCap => NULL
    case ReplyCap(p, _) => p
    case IrqControlCap => NULL
    case SchedControlCap(_) => NULL
    case IrqHandlerCap(_) => NULL
    case SchedContextCap(p, _) => p
    case NullCap => arch.ptr(c)
    case ArchCap(_, _) => arch.ptr(c)
  }

  /** `sameRegionAs(a, b)`: the region `a` names contains the one `b` names.
      For an untyped capability the comparison is on 64-bit words, so a top
      address that wraps around shows up as `bTop < bBase`. */
  function SameRegionAs(arch: ArchOps, a: Cap, b: Cap): bool
  {
    match a
    case UntypedCap(aPtr, aBlockSize) =>
      if CapIsPhysical(arch, b) then
        var aBase := aPtr;
        var bBase := CapPtr(arch, b);
        var aTop := WordAdd(aBase, Mask(aBlockSize));
        var bTop := WordAdd(bBase, Mask(CapSizeBits(arch, b)));
        aBase <= bBase && bTop <= aTop && bBase <= bTop
      else false
    case EndpointCap(p, _, _, _, _, _) => b.EndpointCap? && p == b.capEPPtr
    case NotificationCap(p, _, _, _) => b.NotificationCap? && p == b.capNtfnPtr
    case CNodeCap(p, radix, _, _) => b.CNodeCap? && p == b.capCNodePtr && radix == b.capCNodeRadix
    case ThreadCap(p) => b.ThreadCap? && p == b.capTCBPtr
    case ReplyCap(p, _) => b.ReplyCap? && p == b.capReplyPtr
    case DomainCap => b.DomainCap?
    case IrqControlCap => b.IrqControlCap? || b.IrqHandlerCap?
    case IrqHandlerCap(irq) => b.IrqHandlerCap? && irq == b.capIRQ
    case SchedContextCap(p, sizeBits) => b.SchedContextCap? && p == b.capSCPtr && sizeBits == b.capSCSizeBits
    case SchedControlCap(_) => b.SchedControlCap?
    case NullCap => false
    case ZombieCap(_, _) => false
    case ArchCap(_, _) => IsArchCap(b) && arch.sameRegionAs(a, b)
  }

  /** `sameObjectAs(a, b)`. */
  function SameObjectAs(arch: ArchOps, a: Cap, b: Cap): bool
  {
    if a.UntypedCap? then false
    else if a.IrqControlCap? && b.IrqHandlerCap? then false
    else if IsArchCap(a) && IsArchCap(b) then arch.sameObjectAs(a, b)
    else SameRegionAs(arch, a, b)
  }

  // ---------------------------------------------------------------------
  // Reference definitions

  /** The fields that identify the object a capability names, for the tags
      whose region is a single object: the object's address, and in addition
      the radix of a CNode and the size of a scheduling context. */
  datatype ObjectName =
    | EndpointName(ep: Ptr)
    | NotificationName(ntfn: Ptr)
    | CNodeName(cnode: Ptr, radix: nat)
    | ThreadName(tcb: Ptr)
    | ReplyName(reply: Ptr)
    | IrqHandlerName(irq: nat)
    | SchedContextName(sc: Ptr, sizeBits: nat)
    | Unnamed

  function Name(c: Cap): ObjectName
  {
    match c
    case EndpointCap(p, _, _, _, _, _) => EndpointName(p)
    case NotificationCap(p, _, _, _) => NotificationName(p)
    case CNodeCap(p, radix, _, _) => CNodeName(p, radix)
    case ThreadCap(p) => ThreadName(p)
    case ReplyCap(p, _) => ReplyName(p)
    case IrqHandlerCap(irq) => IrqHandlerName(irq)
    case SchedContextCap(p, sizeBits) => SchedContextName(p, sizeBits)
    case _ => Unnamed
  }

  /** The tags that stand for a single kernel-wide authority rather than an object. */
  predicate IsSingletonTag(c: Cap)
  {
    c.DomainCap? || c.SchedControlCap?
  }

  /** The generic tags that carry no memory. */
  predicate IsNonPhysicalTag(c: Cap)
  {
    c.DomainCap? || c.IrqControlCap? || c.IrqHandlerCap? || c.SchedControlCap?
  }

  /** Where the object of a generic, memory-backed capability starts:
      the stored object address (for a TCB, the base of its slot array). */
  function ObjectBase(c: Cap): Word
  {
    match c
    case UntypedCap(p, _) => p
    case EndpointCap(p, _, _, _, _, _) => p
    case NotificationCap(p, _, _, _) => p
    case CNodeCap(p, _, _, _) => p
    case ThreadCap(p) => AlignDown(p, TCB_BITS)
    case ZombieCap(p, _) => p
    case ReplyCap(p, _) => p
    case SchedContextCap(p, _) => p
    case _ => NULL
  }

  /** A binary relation on capabilities holds in both directions. */
  ghost predicate Symmetric(rel: (Cap, Cap) -> bool, a: Cap, b: Cap)
  {
    rel(a, b) == rel(b, a)
  }

  /** The architecture's classifier keeps `sameObjectAs` inside `sameRegionAs`. */
  ghost predicate ArchObjectWithinRegion(arch: ArchOps)
  {
    forall a, b :: arch.sameObjectAs(a, b) ==> arch.sameRegionAs(a, b)
  }

  // ---------------------------------------------------------------------
  // sameRegionAs

  /** An untyped capability whose own range does not wrap around contains
      exactly the memory-backed capabilities whose byte range
      `[base, base + 2^size - 1]` lies inside its own, as integer ranges; a
      range that would run past the end of the address space is never inside. */
  lemma UntypedContainsRange(arch: ArchOps, a: Cap, b: Cap)
    requires a.UntypedCap?
    requires a.capPtr + Mask(a.capBlockSize) < WORD_MODULUS
    ensures SameRegionAs(arch, a, b) <==>
              CapIsPhysical(arch, b) &&
              a.capPtr <= CapPtr(arch, b) &&
              CapPtr(arch, b) + Mask(CapSizeBits(arch, b)) <= a.capPtr + Mask(a.capBlockSize)
  {
    var bBase, bMask := CapPtr(arch, b), Mask(CapSizeBits(arch, b));
    if bBase + bMask >= WORD_MODULUS {
      assert WordAdd(bBase, bMask) < bBase;
    }
  }

  /** An untyped capability never contains a capability without memory. */
  lemma UntypedNeedsPhysical(arch: ArchOps, a: Cap, b: Cap)
    requires a.UntypedCap? && !CapIsPhysical(arch, b)
    ensures !SameRegionAs(arch, a, b)
  {
  }

  /** Endpoint, notification, CNode, thread, reply, IRQ-handler and
      scheduling-context capabilities have the same region exactly when they
      name the same object: same tag and equal identifying fields. */
  lemma NamedRegionIsIdentity(arch: ArchOps, a: Cap, b: Cap)
    requires Name(a) != Unnamed
    ensures SameRegionAs(arch, a, b) <==> Name(a) == Name(b)
  {
  }

  /** Between two such capabilities the relation is symmetric. (An untyped
      capability can cover an endpoint, never the other way round.) */
  lemma NamedRegionSymmetric(arch: ArchOps, a: Cap, b: Cap)
    requires Name(a) != Unnamed && Name(b) != Unnamed
    ensures SameRegionAs(arch, a, b) == SameRegionAs(arch, b, a)
  {
    NamedRegionIsIdentity(arch, a, b);
    NamedRegionIsIdentity(arch, b, a);
  }

  /** Any two domain capabilities, and any two scheduling-control capabilities,
      cover each other; neither covers a capability of another tag. */
  lemma SingletonsCoverTheirTag(arch: ArchOps, a: Cap, b: Cap)
    requires IsSingletonTag(a)
    ensures SameRegionAs(arch, a, b) <==> (a.DomainCap? && b.DomainCap?) || (a.SchedControlCap? && b.SchedControlCap?)
  {
  }

  /** The IRQ-control capability covers every IRQ capability; an IRQ-handler
      capability covers only the handler of the same IRQ. */
  lemma IrqRegions(arch: ArchOps, a: Cap, b: Cap)
    ensures a.IrqControlCap? ==> (SameRegionAs(arch, a, b) <==> b.IrqControlCap? || b.IrqHandlerCap?)
    ensures a.IrqHandlerCap? ==> (SameRegionAs(arch, a, b) <==> b.IrqHandlerCap? && b.capIRQ == a.capIRQ)
  {
  }

  /** Hence `sameRegionAs` is not symmetric. */
  lemma SameRegionNotSymmetric(arch: ArchOps)
    ensures SameRegionAs(arch, IrqControlCap, IrqHandlerCap(0))
    ensures !SameRegionAs(arch, IrqHandlerCap(0), IrqControlCap)
  {
  }

  /** Null and zombie capabilities cover nothing, and an architecture
      capability covers only architecture capabilities. */
  lemma UnhandledTagsCoverNothing(arch: ArchOps, a: Cap, b: Cap)
    requires a.NullCap? || a.ZombieCap? || (a.ArchCap? && !b.ArchCap?)
    ensures !SameRegionAs(arch, a, b)
  {
  }

  // ---------------------------------------------------------------------
  // sameObjectAs

  /** An untyped capability names memory, not an object: it is never the same
      object as anything, itself included. */
  lemma UntypedIsNoObject(arch: ArchOps, a: Cap, b: Cap)
    requires a.UntypedCap?
    ensures !SameObjectAs(arch, a, b) && !SameObjectAs(arch, a, a)
  {
  }

  /** `sameObjectAs` agrees with `sameRegionAs` on every pair that is not
      both architecture-defined, except that untyped capabilities name no
      object and the IRQ-control capability is not the same object as a
      handler. */
  lemma SameObjectIsRegionOutsideArch(arch: ArchOps, a: Cap, b: Cap)
    requires !(IsArchCap(a) && IsArchCap(b))
    ensures SameObjectAs(arch, a, b) <==>
              !a.UntypedCap? && !(a.IrqControlCap? && b.IrqHandlerCap?) && SameRegionAs(arch, a, b)
  {
  }

  /** `sameObjectAs` implies `sameRegionAs` outside the architecture fallback,
      and everywhere when the architecture's classifier does. */
  lemma SameObjectImpliesSameRegion(arch: ArchOps, a: Cap, b: Cap)
    requires !(IsArchCap(a) && IsArchCap(b)) || ArchObjectWithinRegion(arch)
    ensures SameObjectAs(arch, a, b) ==> SameRegionAs(arch, a, b)
  {
    if IsArchCap(a) && IsArchCap(b) && SameObjectAs(arch, a, b) {
      assert arch.sameObjectAs(a, b);
    }
  }

  /** Two capabilities of different generic tags are never the same object. */
  lemma DifferentTagsNotSameObject(arch: ArchOps, a: Cap, b: Cap)
    requires !IsArchCap(a) && Name(a) != Unnamed && Name(b) == Unnamed
    ensures !SameObjectAs(arch, a, b)
  {
    NamedRegionIsIdentity(arch, a, b);
  }

  // ---------------------------------------------------------------------
  // Sizes, physical memory and addresses

  /** The size of every generic capability without memory, and of the null
      capability, is 0; a CNode is its slots, a TCB zombie a TCB and a CNode
      zombie the CNode its type encodes; a scheduling context has its stored size. */
  lemma SizeBitsByTag(arch: ArchOps, c: Cap)
    ensures IsNonPhysicalTag(c) || c.NullCap? ==> CapSizeBits(arch, c) == 0
    ensures c.CNodeCap? ==> CapSizeBits(arch, c) == c.capCNodeRadix + SLOT_BITS
    ensures c.ZombieCap? && c.capZombieType == ZOMBIE_TYPE_TCB ==> CapSizeBits(arch, c) == TCB_BITS
    ensures c.ZombieCap? && c.capZombieType != ZOMBIE_TYPE_TCB ==>
              CapSizeBits(arch, c) == c.capZombieType % 64 + SLOT_BITS
    ensures c.SchedContextCap? ==> CapSizeBits(arch, c) == c.capSCSizeBits
  {
  }

  /** Among the generic tags, exactly domain, IRQ-control, IRQ-handler and
      scheduling-control capabilities carry no memory, and exactly for those
      `cap_get_capPtr` yields NULL; every other generic capability yields the
      base of its object. */
  lemma PhysicalExactlyWhenAddressed(arch: ArchOps, c: Cap)
    requires !c.NullCap? && !c.ArchCap?
    ensures !CapIsPhysical(arch, c) <==> IsNonPhysicalTag(c)
    ensures CapPtr(arch, c) == (if IsNonPhysicalTag(c) then NULL else ObjectBase(c))
  {
  }

  /** So the address is NULL exactly for the tags without memory, given that
      kernel objects never start at address 0. */
  lemma NullPtrExactlyWhenNotPhysical(arch: ArchOps, c: Cap)
    requires !c.NullCap? && !c.ArchCap?
    requires !IsNonPhysicalTag(c) ==> ObjectBase(c) != NULL
    ensures CapPtr(arch, c) == NULL <==> !CapIsPhysical(arch, c)
  {
    PhysicalExactlyWhenAddressed(arch, c);
  }
}
