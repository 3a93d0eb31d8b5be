/** The packed word of UX attributes: dynamic priority in bits 0-2, static priority in 3-7, slice in
    8-11, preferred cores in 12-15, share state in 16-19 and flags from 20 on. */
module UxTags {
  type Tags = bv32

  const SLICE1: Tags := 0x100
  const SLICE2: Tags := 0x200
  const SLICE3: Tags := 0x300
  const SLICE7: Tags := 0x700
  const FLAG_EXACT: Tags := 0x10_0000
  const FLAG_ABINDER: Tags := 0x40_0000
  const FLAG_ONESHOT: Tags := 0x100_0000
  const FLAG_KWORKER: Tags := 0x2000_0000
  const TAGS_DEFAULT: Tags := 0x520
  const TAGS_FUTEX: Tags := 0x810_0420

  /** The ways a boost is passed on, and their bits in the share state. */
  datatype Kind = Binder | Mutex | RwSem | Futex

  function ShareBit(k: Kind): Tags {
    match k
    case Binder => 0x1_0000
    case Mutex => 0x2_0000
    case RwSem => 0x4_0000
    case Futex => 0x8_0000
  }

  function Prio(t: Tags): Tags {
    t & 0xFF
  }

  function Dprio(t: Tags): Tags {
    t & 0x7
  }

  function Slice(t: Tags): Tags {
    t & 0xF00
  }

  function ShareState(t: Tags): Tags {
    t & 0xF_0000
  }

  function Identity(t: Tags): Tags {
    t & 0x10_00F8
  }

  function HasFlag(t: Tags, f: Tags): bool {
    t & f == f
  }

  function SetFlag(t: Tags, f: Tags): Tags {
    t | f
  }

  function ClearFlag(t: Tags, f: Tags): Tags {
    t & !f
  }

  function IgnoreShare(t: Tags): Tags {
    t & !0xF_0000
  }

  function ChangeSlice(t: Tags, slice: Tags): Tags {
    (t & !0xF00) | (slice & 0xF00)
  }

  function InitDprio(t: Tags): Tags {
    t | 0x3
  }

  function RaiseDprio(t: Tags): Tags {
    if Dprio(t) == 0x7 then t else t + 1
  }

  function LowerDprio(t: Tags): Tags {
    if Dprio(t) == 0 then t else t - 1
  }

  function RebaseDprio(t: Tags): Tags {
    InitDprio(t & !0x7)
  }

  function PickCores(t: Tags, cores: Tags): Tags {
    (t & !0x7000) | (cores & 0x7000)
  }

  /** `check_ux_tags_ok`: exactly one static priority bit, exact or not. */
  predicate TagsOk(t: Tags) {
    var i := Identity(t);
    || i == 0x10_0008 || i == 0x10_0010 || i == 0x10_0020 || i == 0x10_0040 || i == 0x10_0080
    || i == 0x08 || i == 0x10 || i == 0x20 || i == 0x40 || i == 0x80
  }

  /** One bit of the five that make the static priority, and no other, whatever the rest says. */
  lemma TagsOkIsOneHot(t: Tags)
    ensures TagsOk(t) <==> t & 0xF8 != 0 && (t & 0xF8) & ((t & 0xF8) - 1) == 0
  {
  }

  /** `is_available_ux_type`: the templates user space may ask for, with any preferred cores. */
  predicate Available(t: Tags) {
    var u := t & !0x7000;
    || Prio(t) == 0
    || u == 0x10_0408 || u == 0x10_0410 || u == 0x10_0420 || u == 0x10_0440 || u == 0x10_0480
    || u == 0x508 || u == 0x510 || u == 0x520 || u == 0x540 || u == 0x580
    || u == 0x200_0510 || u == 0x200_0520 || u == 0x200_0540
    || u == 0x410_0440 || u == 0x2000_0540 || u == TAGS_FUTEX
    || u == 0x50_0440 || u == 0x40_00FF
    || u == 0x10_0520 || u == 0x10_0620 || u == 0x10_0540 || u == 0x10_0640 || u == 0x640
  }

  /** What a caller of the tag interface stores: a request without priority is a request to clear. */
  function Requested(t: Tags): Tags {
    if Prio(t) == 0 then 0 else t
  }

  /** The fields take the word apart: each bit belongs to one of them, and the lowest three are the
      dynamic priority. */
  lemma FieldsPartition(t: Tags)
    ensures t == Prio(t) | Slice(t) | (t & 0xF000) | ShareState(t) | (t & 0xFFF0_0000)
    ensures Prio(t) & Slice(t) == 0 && (Prio(t) | Slice(t)) & ShareState(t) == 0
    ensures (Prio(t) | Slice(t) | ShareState(t)) & 0xFFF0_F000 == 0
    ensures Dprio(t) == Prio(t) & 0x7 && Prio(t) < 0x100 && Slice(t) < 0x1000 && ShareState(t) < 0x10_0000
  {
  }

  /** No template carries share bits, so user space cannot forge an inherited boost. */
  lemma RequestsCarryNoShare(t: Tags)
    requires Available(t)
    ensures ShareState(Requested(t)) == 0
  {
  }

  /** Raising or lowering the dynamic priority moves it by one inside its three bits: it never
      carries into the static priority or beyond, and it saturates. */
  lemma RaiseStaysInField(t: Tags)
    ensures RaiseDprio(t) & !0x7 == t & !0x7
    ensures Dprio(RaiseDprio(t)) == if Dprio(t) == 7 then 7 else Dprio(t) + 1
  {
  }

  lemma LowerStaysInField(t: Tags)
    ensures LowerDprio(t) & !0x7 == t & !0x7
    ensures Dprio(LowerDprio(t)) == if Dprio(t) == 0 then 0 else Dprio(t) - 1
  {
  }

  lemma RaiseIsLocal(t: Tags)
    ensures ShareState(RaiseDprio(t)) == ShareState(t) && Identity(RaiseDprio(t)) == Identity(t)
  {
  }

  lemma LowerIsLocal(t: Tags)
    ensures ShareState(LowerDprio(t)) == ShareState(t) && Identity(LowerDprio(t)) == Identity(t)
  {
  }

  lemma RebaseIsLocal(t: Tags)
    ensures ShareState(RebaseDprio(t)) == ShareState(t) && Identity(RebaseDprio(t)) == Identity(t)
    ensures ShareState(InitDprio(t)) == ShareState(t) && Identity(InitDprio(t)) == Identity(t)
  {
  }

  lemma RaiseThenLower(t: Tags)
    requires Dprio(t) < 7
    ensures LowerDprio(RaiseDprio(t)) == t
  {
  }

  lemma CoresAreLocal(t: Tags, cores: Tags)
    ensures ShareState(PickCores(t, cores)) == ShareState(t)
    ensures Identity(PickCores(t, cores)) == Identity(t) && Prio(PickCores(t, cores)) == Prio(t)
  {
  }

  lemma SliceIsLocal(t: Tags, slice: Tags)
    ensures ShareState(ChangeSlice(t, slice)) == ShareState(t)
    ensures Identity(ChangeSlice(t, slice)) == Identity(t) && Prio(ChangeSlice(t, slice)) == Prio(t)
  {
  }

  lemma FlagKeepsShare(t: Tags, f: Tags)
    requires f & 0xF_0000 == 0
    ensures ShareState(ClearFlag(t, f)) == ShareState(t)
    ensures ShareState(SetFlag(t, f)) == ShareState(t)
  {
  }

  lemma FlagKeepsIdentity(t: Tags, f: Tags)
    requires f & 0x10_00F8 == 0
    ensures Identity(ClearFlag(t, f)) == Identity(t)
    ensures Identity(SetFlag(t, f)) == Identity(t)
  {
  }

  lemma FlagKeepsPrio(t: Tags, f: Tags)
    requires f & 0xFF == 0
    ensures Prio(ClearFlag(t, f)) == Prio(t)
    ensures Prio(SetFlag(t, f)) == Prio(t)
  {
  }

  lemma FlagBits(f: Tags)
    requires f == FLAG_ABINDER || f == FLAG_ONESHOT
    ensures f & 0xF_0000 == 0 && f & 0x10_00F8 == 0 && f & 0xFF == 0 && f != 0
  {
  }

  lemma ShareAdds(t: Tags, b: Tags)
    requires b & 0xF_0000 == b
    ensures ShareState(SetFlag(t, b)) == ShareState(t) | b
    ensures ShareState(ClearFlag(t, b)) == ShareState(t) & !b
  {
  }

  lemma NewSlice(t: Tags, slice: Tags)
    ensures Slice(ChangeSlice(t, slice)) == slice & 0xF00
    ensures Dprio(ChangeSlice(t, slice)) == Dprio(t)
  {
  }

  lemma RaiseKeepsSlice(t: Tags)
    ensures Slice(RaiseDprio(t)) == Slice(t)
  {
  }

  lemma ClearAbinder(t: Tags)
    ensures Slice(ClearFlag(t, FLAG_ABINDER)) == Slice(t)
    ensures Dprio(ClearFlag(t, FLAG_ABINDER)) == Dprio(t)
    ensures !HasFlag(ClearFlag(t, FLAG_ABINDER), FLAG_ABINDER)
  {
  }

  lemma ShareIgnored(t: Tags)
    ensures ShareState(IgnoreShare(t)) == 0
    ensures Identity(IgnoreShare(t)) == Identity(t) && Prio(IgnoreShare(t)) == Prio(t)
  {
  }

  lemma ShareBitInField(k: Kind)
    ensures var b := ShareBit(k); b & 0xF_0000 == b && b & 0x10_00F8 == 0 && b & 0xFF == 0 && b != 0
  {
  }

  lemma ShareBitsDiffer(j: Kind, k: Kind)
    ensures ShareBit(j) == ShareBit(k) <==> j == k
    ensures ShareBit(k) != 0 && (0 as Tags) | ShareBit(k) == ShareBit(k) == ShareBit(k) | ShareBit(k)
    ensures ShareBit(k) & !ShareBit(k) == 0 && (j != k ==> ShareBit(j) & !ShareBit(k) == ShareBit(j))
  {
  }

  lemma IdentityDecides(a: Tags, b: Tags)
    requires Identity(a) == Identity(b)
    ensures TagsOk(a) == TagsOk(b)
  {
  }
}
