/** Inherited boosts: a task that waits for another passes its UX attributes on, over binder calls,
    mutexes, read-write semaphores and futexes, a limited number of times. */
module UxShare {
  import opened UxTags

  /** The `share` word: five 4-bit counters. */
  datatype Share = Share(hold: nat, binder: nat, mutex: nat, rwsem: nat, futex: nat)

  const NO_SHARE := Share(0, 0, 0, 0, 0)
  const HOLD_INIT := 1
  const HOLD_LIMIT := 3

  /** A task as far as boosts go. `chain` is bookkeeping: the ways its boost came from the task that
      owned it; the fields from `fair` to `target` are set by the rest of the kernel. */
  datatype Task = Task(
    tags: Tags,
    share: Share,
    pending: Tags,
    init: bool,
    linked: bool,
    fair: bool,
    rt: bool,
    exiting: bool,
    expired: bool,
    kworkerOff: bool,
    onRq: bool,
    target: bool,
    chain: seq<Kind>)

  datatype UxState = Real | Timeout | NotFair | NoTag | Exiting | KworkerDisabled

  /** `__is_ux_task` with the feature on. */
  function StateOf(t: Task): UxState {
    if !t.fair then NotFair
    else if !TagsOk(t.tags) then NoTag
    else if HasFlag(t.tags, FLAG_KWORKER) && t.kworkerOff then KworkerDisabled
    else if t.exiting then Exiting
    else if t.expired then Timeout
    else Real
  }

  function Count(s: Share, k: Kind): nat {
    match k
    case Binder => s.binder
    case Mutex => s.mutex
    case RwSem => s.rwsem
    case Futex => s.futex
  }

  function WithCount(s: Share, k: Kind, n: nat): Share {
    match k
    case Binder => s.(binder := n)
    case Mutex => s.(mutex := n)
    case RwSem => s.(rwsem := n)
    case Futex => s.(futex := n)
  }

  predicate SharedBy(t: Tags, k: Kind) {
    ShareState(t) == ShareBit(k)
  }

  // ---------------------------------------------------------------- the primitives

  /** `inc_ux_share`; a 4-bit field wraps at sixteen. */
  function IncTags(tags: Tags, s: Share, k: Kind): Tags {
    if Count(s, k) == 0 then SetFlag(tags, ShareBit(k)) else tags
  }

  function IncShare(s: Share, k: Kind): Share {
    WithCount(s, k, (Count(s, k) + 1) % 16).(hold := HOLD_INIT)
  }

  /** `inc_ux_share_hold`. */
  function IncHold(s: Share, k: Kind): Share {
    if (k.Binder? || k.Futex?) && s.hold <= HOLD_LIMIT then s.(hold := (s.hold + 1) % 16) else s
  }

  /** `dec_ux_share`. */
  function DecShare(s: Share, k: Kind): Share {
    var h := if s.hold > 0 then s.hold - 1 else 0;
    if h == 0 then WithCount(s, k, 0).(hold := 0) else s.(hold := h)
  }

  function DecTags(tags: Tags, s: Share, k: Kind): Tags {
    if s.hold <= 1 then ClearFlag(tags, ShareBit(k)) else tags
  }

  function Cleared(t: Task): Task {
    t.(tags := 0, share := NO_SHARE, init := false, chain := [])
  }

  /** The receiving end: a fresh record is initialised first, and a runnable task is linked. */
  function Received(to: Task, tags: Tags, share: Share, chain: seq<Kind>): Task {
    to.(tags := tags, share := share, chain := chain,
        pending := if to.init then to.pending else 0,
        init := true,
        linked := to.linked || to.onRq)
  }

  /** `set_ux_share`: hand `tags` and `share` to a task, one more hop of kind `k` along. */
  function SetShare(to: Task, k: Kind, share: Share, tags: Tags, chain: seq<Kind>): Task {
    if to.target || !(to.fair || to.rt) then to
    else Received(to, IncTags(ClearFlag(tags, FLAG_ONESHOT), share, k), IncShare(share, k), chain + [k])
  }

  /** `unset_ux_share`. */
  function UnsetShare(t: Task, k: Kind): Task {
    if !t.init || HasFlag(t.tags, FLAG_ONESHOT) then t
    else if t.tags == 0 && t.share == NO_SHARE then t
    else if SharedBy(DecTags(t.tags, t.share, k), k) then
      t.(tags := DecTags(t.tags, t.share, k), share := DecShare(t.share, k))
    else Ended(t, k)
  }

  /** The boost is over: at once, or for a queued binder boost after one more sleep. */
  function Ended(t: Task, k: Kind): Task {
    if t.linked && k.Binder? then t.(tags := SetFlag(t.tags, FLAG_ONESHOT))
    else Cleared(t).(linked := false)
  }

  /** `update_ux_share_hold`. */
  function UpdateHold(t: Task, k: Kind): Task {
    if !SharedBy(t.tags, k) || !StateOf(t).Real? then t
    else
      t.(tags := if HasFlag(t.tags, FLAG_ONESHOT) then ClearFlag(t.tags, FLAG_ONESHOT) else t.tags,
         share := IncHold(t.share, k))
  }

  // ---------------------------------------------------------------- passing boosts on

  /** The slice and the dynamic priority grow for the main thread of a launching application. */
  function BinderTags(tags: Tags, launch: bool): Tags {
    var a := if launch then ChangeSlice(tags, SLICE7) else tags;
    var b := if launch && Dprio(a) == 3 then RaiseDprio(a) else a;
    if HasFlag(b, FLAG_ABINDER) then ClearFlag(b, FLAG_ABINDER) else b
  }

  /** The receiver is a UX task already: a call that is sent to it keeps its binder boost longer. */
  function BinderHold(to: Task, received: bool): Task {
    if !received && SharedBy(to.tags, Binder) then UpdateHold(to, Binder) else to
  }

  function BinderFromUx(from: Task, to: Task, launch: bool): Task {
    if ShareState(from.tags) == 0 then SetShare(to, Binder, NO_SHARE, BinderTags(from.tags, launch), from.chain)
    else if !SharedBy(from.tags, Binder) || from.share.binder >= 3 then to
    else SetShare(to, Binder, from.share, BinderTags(from.tags, launch), from.chain)
  }

  const RT_TAGS: Tags := InitDprio(TAGS_DEFAULT)

  /** `binder_set_ux_share` with a donor task. */
  function BinderSet(from: Task, to: Task, launch: bool, received: bool): Task {
    if StateOf(from).Real? then
      if StateOf(to).Real? then BinderHold(to, received)
      else if StateOf(to).NoTag? || (StateOf(to).NotFair? && !TagsOk(to.tags)) then BinderFromUx(from, to, launch)
      else to
    else if from.rt then
      if StateOf(to).Real? then BinderHold(to, received)
      else if StateOf(to).NoTag? then
        SetShare(to, Binder, NO_SHARE,
                 if HasFlag(RT_TAGS, FLAG_ABINDER) then ClearFlag(RT_TAGS, FLAG_ABINDER) else RT_TAGS, [])
      else to
    else to
  }

  function LockFromUx(from: Task, to: Task, k: Kind, slice: Tags): Task {
    if ShareState(from.tags) == 0 then SetShare(to, k, NO_SHARE, ChangeSlice(from.tags, slice), from.chain)
    else if SharedBy(from.tags, k) then
      if Count(from.share, k) >= 2 then to
      else SetShare(to, k, from.share, ChangeSlice(from.tags, slice), from.chain)
    else if SharedBy(from.tags, Binder) then
      SetShare(to, k, NO_SHARE, ChangeSlice(IgnoreShare(from.tags), slice), from.chain)
    else to
  }

  /** `mutex_set_ux_share` and `rwsem_set_ux_share`: `from` waits for a lock that `to` holds. */
  function LockSet(from: Task, to: Task, k: Kind, slice: Tags): Task {
    if StateOf(from).Real? && !StateOf(to).Real? then
      if StateOf(to).NoTag? then LockFromUx(from, to, k, slice) else to
    else if from.rt && !StateOf(to).Real? then
      if StateOf(to).NoTag? && from.target then SetShare(to, k, NO_SHARE, ChangeSlice(RT_TAGS, slice), []) else to
    else to
  }

  /** `futex_set_ux_share`: the owner of a contended futex. */
  function FutexSet(t: Task): Task {
    if StateOf(t).Real? then (if SharedBy(t.tags, Futex) then UpdateHold(t, Futex) else t)
    else if StateOf(t).NoTag? || StateOf(t).NotFair? then
      SetShare(t, Futex, NO_SHARE, ChangeSlice(RaiseDprio(InitDprio(TAGS_FUTEX)), SLICE3), [])
    else t
  }

  // ---------------------------------------------------------------- own tags

  datatype Pending = Pending(tags: Tags, pending: Tags, ignore: bool)

  /** `update_ux_pending`: a second request waits behind the first, or overtakes it. */
  function UpdatePending(t: Task, req: Tags): Pending {
    if t.tags == 0 || ShareState(t.tags) != 0 || (req == 0 && t.pending == 0) then Pending(req, t.pending, false)
    else if req != 0 && t.pending == 0 then
      if Prio(req & !0x7) > Prio(t.tags & !0x7) then Pending(req, t.tags, false) else Pending(req, req, true)
    else if req == 0 then
      if t.tags & FLAG_EXACT != 0 then Pending(t.pending, 0, false) else Pending(req, 0, true)
    else Pending(req, t.pending, true)
  }

  /** `set_ux_tags_to_task` past its two side routes. */
  function OwnTags(t: Task, req: Tags): Task {
    if req == 0 && t.tags == 0 then t
    else
      var p := UpdatePending(t, req);
      if p.ignore then t.(pending := p.pending)
      else
        Install(t, if p.tags != 0 && Dprio(p.tags) == 0 then InitDprio(p.tags) else p.tags, p.pending)
  }

  function Install(t: Task, tags: Tags, pending: Tags): Task {
    t.(tags := tags, share := NO_SHARE, chain := [],
       pending := if t.init then pending else 0,
       init := tags != 0,
       linked := t.linked || (TagsOk(tags) && t.onRq && !(HasFlag(tags, FLAG_KWORKER) && t.kworkerOff)))
  }

  predicate FutexType(req: Tags) {
    req & !0xFF == TAGS_FUTEX & !0xFF
  }

  function SetTags(t: Task, req: Tags): Task {
    if FutexType(req) then
      if req == TAGS_FUTEX then FutexSet(t)
      else if Prio(req) == 0 && t.share.futex != 0 then UnsetShare(t, Futex)
      else t
    else OwnTags(t, Requested(req))
  }

  datatype Shift = Lower | Raise | Rebase | Keep

  function Shifted(t: Tags, shift: Shift): Tags {
    match shift
    case Lower => LowerDprio(t)
    case Raise => RaiseDprio(t)
    case Rebase => RebaseDprio(t)
    case Keep => t
  }

  /** `convert_ux_prio`: shift the dynamic priority and choose the cores of a tagged task. */
  function AdjustPrio(t: Task, shift: Shift, pickCores: bool, cores: Tags): Task {
    if Prio(t.tags) == 0 || !TagsOk(t.tags) then t
    else
      t.(tags := if pickCores then PickCores(Shifted(t.tags, shift), cores) else Shifted(t.tags, shift))
  }

  /** `dequeue_ux_task`: an unlinked boost ends if it was for one sleep only or outran its slice. */
  function Dequeue(t: Task, sleep: bool, outran: bool): Task {
    if !t.linked then t
    else
      var u := t.(linked := false);
      if ShareState(u.tags) != 0 && ((HasFlag(u.tags, FLAG_ONESHOT) && sleep) || outran) then Cleared(u) else u
  }

  // ---------------------------------------------------------------- the invariant

  function Repeat(k: Kind, n: nat): seq<Kind> {
    seq(n, _ => k)
  }

  function Alone(k: Kind, n: nat, hold: nat): Share {
    WithCount(Share(hold, 0, 0, 0, 0), k, n)
  }

  /** How often a boost may be passed on in one way, and how many binder hops may come before. */
  function Limit(k: Kind): nat {
    match k
    case Binder => 3
    case Mutex => 2
    case RwSem => 2
    case Futex => 1
  }

  function BinderHopsBefore(k: Kind): nat {
    if k.Mutex? || k.RwSem? then 3 else 0
  }

  /** A boost inherited by `k`: that share bit and no other, a counter for `k` and no other, equal to
      the hops of kind `k` that end the chain, after at most three binder hops if `k` is a lock. */
  predicate Boosted(t: Task, k: Kind) {
    var n := Count(t.share, k);
    && SharedBy(t.tags, k)
    && 1 <= n <= Limit(k) && 1 <= t.share.hold <= HOLD_LIMIT + 1
    && t.share == Alone(k, n, t.share.hold)
    && n <= |t.chain| <= n + BinderHopsBefore(k)
    && t.chain == Repeat(Binder, |t.chain| - n) + Repeat(k, n)
  }

  predicate Plain(t: Task) {
    ShareState(t.tags) == 0 && t.share == NO_SHARE && t.chain == []
  }

  predicate BoostOk(t: Task) {
    Plain(t) || Boosted(t, Binder) || Boosted(t, Mutex) || Boosted(t, RwSem) || Boosted(t, Futex)
  }

  predicate Ok(t: Task) {
    ShareState(t.pending) == 0 && BoostOk(t)
  }

  /** What the invariant is for: the chain has at most five hops, three binder and then two of one
      lock; the share bits are one-hot; and no counter comes near the end of its four bits. */
  lemma ChainsAreShort(t: Task)
    requires Ok(t)
    ensures |t.chain| <= 5
    ensures ShareState(t.tags) == 0 <==> t.chain == []
    ensures t.chain != [] ==> SharedBy(t.tags, t.chain[|t.chain| - 1])
    ensures t.share.hold <= 4 && t.share.binder <= 3 && t.share.mutex <= 2 && t.share.rwsem <= 2 && t.share.futex <= 1
    ensures t.share.binder + t.share.mutex + t.share.rwsem + t.share.futex <= |t.chain|
  {
    hide ShareState;
    ShareBitInField(Binder);
    ShareBitInField(Mutex);
    ShareBitInField(RwSem);
    ShareBitInField(Futex);
  }

  lemma BitsOfKinds()
    ensures forall k :: ShareBit(k) != 0
    ensures forall j, k :: ShareBit(j) == ShareBit(k) <==> j == k
  {
  }

  /** The share bits tell which way a boost came. */
  lemma KindDecides(t: Task, k: Kind)
    requires BoostOk(t)
    ensures SharedBy(t.tags, k) <==> Boosted(t, k)
    ensures ShareState(t.tags) == 0 <==> Plain(t)
  {
    hide ShareState;
    BitsOfKinds();
  }

  /** What may be handed on by `k`: nothing inherited yet, or fewer hops than the limit. */
  predicate Donation(k: Kind, share: Share, tags: Tags, chain: seq<Kind>) {
    var n := Count(share, k);
    && n < Limit(k)
    && share == Alone(k, n, share.hold)
    && (if n == 0 then ShareState(tags) == 0 else SharedBy(tags, k))
    && n <= |chain| <= n + BinderHopsBefore(k)
    && chain == Repeat(Binder, |chain| - n) + Repeat(k, n)
  }

  lemma IncTagsShares(k: Kind, share: Share, tags: Tags)
    requires if Count(share, k) == 0 then ShareState(tags) == 0 else SharedBy(tags, k)
    ensures SharedBy(IncTags(ClearFlag(tags, FLAG_ONESHOT), share, k), k)
    ensures Identity(IncTags(ClearFlag(tags, FLAG_ONESHOT), share, k)) == Identity(tags)
    ensures Prio(IncTags(ClearFlag(tags, FLAG_ONESHOT), share, k)) == Prio(tags)
  {
    hide ShareState, Identity, Prio, ClearFlag, SetFlag, ShareBit;
    FlagBits(FLAG_ONESHOT);
    FlagKeepsShare(tags, FLAG_ONESHOT);
    FlagKeepsIdentity(tags, FLAG_ONESHOT);
    FlagKeepsPrio(tags, FLAG_ONESHOT);
    var u := ClearFlag(tags, FLAG_ONESHOT);
    ShareBitInField(k);
    ShareAdds(u, ShareBit(k));
    ShareBitsDiffer(k, k);
    FlagKeepsIdentity(u, ShareBit(k));
    FlagKeepsPrio(u, ShareBit(k));
  }

  lemma OneMoreHop(k: Kind, share: Share, tags: Tags, chain: seq<Kind>)
    requires Donation(k, share, tags, chain)
    ensures var n := Count(share, k);
            && IncShare(share, k) == Alone(k, n + 1, HOLD_INIT) && Count(IncShare(share, k), k) == n + 1
            && IncShare(share, k).hold == HOLD_INIT && n + 1 <= Limit(k)
            && n + 1 <= |chain + [k]| <= n + 1 + BinderHopsBefore(k)
            && chain + [k] == Repeat(Binder, |chain| - n) + Repeat(k, n + 1)
  {
    hide ShareState, SharedBy;
    var n := Count(share, k);
    assert Repeat(k, n + 1) == Repeat(k, n) + [k];
  }

  lemma SetShareOk(to: Task, k: Kind, share: Share, tags: Tags, chain: seq<Kind>)
    requires Ok(to) && Donation(k, share, tags, chain)
    ensures Ok(SetShare(to, k, share, tags, chain))
    ensures !to.target && (to.fair || to.rt) ==> Boosted(SetShare(to, k, share, tags, chain), k)
  {
    hide Ok, Donation, ShareState, IncTags, SharedBy, IncShare, Alone, Repeat, ClearFlag, Received, Boosted;
    OneMoreHop(k, share, tags, chain);
    DonatedBit(k, share, tags, chain);
    ReceivedOk(to, k, IncTags(ClearFlag(tags, FLAG_ONESHOT), share, k), IncShare(share, k), chain + [k]);
  }

  lemma DonatedBit(k: Kind, share: Share, tags: Tags, chain: seq<Kind>)
    requires Donation(k, share, tags, chain)
    ensures SharedBy(IncTags(ClearFlag(tags, FLAG_ONESHOT), share, k), k)
  {
    hide ShareState, SharedBy, IncTags, ClearFlag, Repeat, Alone;
    IncTagsShares(k, share, tags);
  }

  lemma ReceivedOk(to: Task, k: Kind, tags: Tags, share: Share, chain: seq<Kind>)
    requires Ok(to) && SharedBy(tags, k)
    requires var n := Count(share, k);
             && 1 <= n <= Limit(k) && share == Alone(k, n, HOLD_INIT) && share.hold == HOLD_INIT
             && n <= |chain| <= n + BinderHopsBefore(k)
             && chain == Repeat(Binder, |chain| - n) + Repeat(k, n)
    ensures Ok(Received(to, tags, share, chain)) && Boosted(Received(to, tags, share, chain), k)
  {
    hide ShareState, SharedBy, Alone, Repeat;
    ZeroNoShare();
  }

  lemma ZeroNoShare()
    ensures ShareState(0) == 0
  {
  }

  lemma BinderTagsKeep(tags: Tags, launch: bool)
    ensures ShareState(BinderTags(tags, launch)) == ShareState(tags)
    ensures Identity(BinderTags(tags, launch)) == Identity(tags)
  {
  }

  /** What a call hands on beside the identity: the receiver runs as the donor does, and for the main
      thread of a launching application one priority higher, if that was not raised yet, on the
      longest slice. */
  lemma BinderTagsAre(tags: Tags, launch: bool)
    ensures var r := BinderTags(tags, launch);
            && Dprio(r) == (if launch && Dprio(tags) == 3 then 4 else Dprio(tags))
            && Slice(r) == (if launch then SLICE7 else Slice(tags))
            && !HasFlag(r, FLAG_ABINDER)
  {
    hide Dprio, Slice, ChangeSlice, RaiseDprio, ClearFlag;
    var a := if launch then ChangeSlice(tags, SLICE7) else tags;
    NewSlice(tags, SLICE7);
    RaiseStaysInField(a);
    RaiseKeepsSlice(a);
    var b := if launch && Dprio(a) == 3 then RaiseDprio(a) else a;
    ClearAbinder(b);
  }

  lemma NothingInherited(k: Kind, tags: Tags, chain: seq<Kind>)
    requires ShareState(tags) == 0 && |chain| <= BinderHopsBefore(k) && chain == Repeat(Binder, |chain|)
    ensures Donation(k, NO_SHARE, tags, chain)
  {
  }

  lemma BinderFromUxOk(from: Task, to: Task, launch: bool)
    requires Ok(from) && Ok(to)
    ensures Ok(BinderFromUx(from, to, launch))
  {
    hide BinderTags, ShareState, SharedBy, Boosted, SetShare;
    BinderTagsKeep(from.tags, launch);
    KindDecides(from, Binder);
    var tags := BinderTags(from.tags, launch);
    if ShareState(from.tags) == 0 {
      NothingInherited(Binder, tags, from.chain);
      SetShareOk(to, Binder, NO_SHARE, tags, from.chain);
    } else if SharedBy(from.tags, Binder) && from.share.binder < 3 {
      BoostedDonates(from, Binder, tags);
      SetShareOk(to, Binder, from.share, tags, from.chain);
    }
  }

  lemma BoostedDonates(from: Task, k: Kind, tags: Tags)
    requires Boosted(from, k) && Count(from.share, k) < Limit(k) && ShareState(tags) == ShareState(from.tags)
    ensures Donation(k, from.share, tags, from.chain)
  {
  }

  lemma LockFromUxOk(from: Task, to: Task, k: Kind, slice: Tags)
    requires Ok(from) && Ok(to) && (k.Mutex? || k.RwSem?)
    ensures Ok(LockFromUx(from, to, k, slice))
  {
    hide ShareState, SharedBy, Boosted, SetShare, ChangeSlice, IgnoreShare;
    KindDecides(from, k);
    KindDecides(from, Binder);
    SliceIsLocal(from.tags, slice);
    SliceIsLocal(IgnoreShare(from.tags), slice);
    ShareIgnored(from.tags);
    if ShareState(from.tags) == 0 {
      NothingInherited(k, ChangeSlice(from.tags, slice), from.chain);
      SetShareOk(to, k, NO_SHARE, ChangeSlice(from.tags, slice), from.chain);
    } else if SharedBy(from.tags, k) {
      if Count(from.share, k) < 2 {
        BoostedDonates(from, k, ChangeSlice(from.tags, slice));
        SetShareOk(to, k, from.share, ChangeSlice(from.tags, slice), from.chain);
      }
    } else if SharedBy(from.tags, Binder) {
      BinderChain(from);
      NothingInherited(k, ChangeSlice(IgnoreShare(from.tags), slice), from.chain);
      SetShareOk(to, k, NO_SHARE, ChangeSlice(IgnoreShare(from.tags), slice), from.chain);
    }
  }

  lemma BinderChain(t: Task)
    requires Boosted(t, Binder)
    ensures |t.chain| == t.share.binder <= 3 && t.chain == Repeat(Binder, |t.chain|)
  {
  }

  lemma UpdateHoldOk(t: Task, k: Kind)
    requires Ok(t)
    ensures Ok(UpdateHold(t, k))
  {
    hide ShareState, ClearFlag, StateOf;
    FlagBits(FLAG_ONESHOT);
    FlagKeepsShare(t.tags, FLAG_ONESHOT);
    KindDecides(t, k);
    BitsOfKinds();
  }

  lemma RtTagsPlain(slice: Tags)
    ensures ShareState(RT_TAGS) == 0 && ShareState(ClearFlag(RT_TAGS, FLAG_ABINDER)) == 0
    ensures ShareState(ChangeSlice(RT_TAGS, slice)) == 0
  {
  }

  lemma BinderSetOk(from: Task, to: Task, launch: bool, received: bool)
    requires Ok(from) && Ok(to)
    ensures Ok(BinderSet(from, to, launch, received))
  {
    hide Ok, UpdateHold, BinderFromUx, SetShare, StateOf, ClearFlag;
    UpdateHoldOk(to, Binder);
    BinderFromUxOk(from, to, launch);
    RtTagsPlain(0);
    NothingInherited(Binder, RT_TAGS, []);
    NothingInherited(Binder, ClearFlag(RT_TAGS, FLAG_ABINDER), []);
    SetShareOk(to, Binder, NO_SHARE, RT_TAGS, []);
    SetShareOk(to, Binder, NO_SHARE, ClearFlag(RT_TAGS, FLAG_ABINDER), []);
  }

  lemma LockSetOk(from: Task, to: Task, k: Kind, slice: Tags)
    requires Ok(from) && Ok(to) && (k.Mutex? || k.RwSem?)
    ensures Ok(LockSet(from, to, k, slice))
  {
    hide Ok, LockFromUx, SetShare, StateOf, ChangeSlice;
    LockFromUxOk(from, to, k, slice);
    RtTagsPlain(slice);
    NothingInherited(k, ChangeSlice(RT_TAGS, slice), []);
    SetShareOk(to, k, NO_SHARE, ChangeSlice(RT_TAGS, slice), []);
  }

  lemma UnsetShareOk(t: Task, k: Kind)
    requires Ok(t)
    ensures Ok(UnsetShare(t, k))
  {
    hide ShareState, BoostOk, SharedBy, DecTags, DecShare, HasFlag, Ended;
    EndedOk(t, k);
    if SharedBy(DecTags(t.tags, t.share, k), k) {
      DecKeeps(t, k);
    }
  }

  lemma EndedOk(t: Task, k: Kind)
    requires Ok(t)
    ensures Ok(Ended(t, k))
  {
    hide ShareState, BoostOk, SetFlag, Cleared;
    FlagBits(FLAG_ONESHOT);
    FlagKeepsShare(t.tags, FLAG_ONESHOT);
    SameBoost(t, t.(tags := SetFlag(t.tags, FLAG_ONESHOT)));
    ClearedOk(t);
  }

  lemma ClearedOk(t: Task)
    ensures BoostOk(Cleared(t)) && BoostOk(Cleared(t).(linked := false))
    ensures Cleared(t).pending == t.pending
  {
  }

  lemma SameBoost(t: Task, u: Task)
    requires BoostOk(t) && ShareState(u.tags) == ShareState(t.tags) && u.share == t.share && u.chain == t.chain
    ensures BoostOk(u)
  {
    hide ShareState;
  }

  /** Only a boost that came by `k` and is still held survives a decrement of `k`. */
  lemma DecKeeps(t: Task, k: Kind)
    requires BoostOk(t) && SharedBy(DecTags(t.tags, t.share, k), k)
    ensures BoostOk(t.(tags := DecTags(t.tags, t.share, k), share := DecShare(t.share, k)))
    ensures t.share.hold > 1 && Boosted(t, k)
  {
    hide ShareState, Boosted, SetFlag, ClearFlag;
    ShareBitInField(k);
    ShareAdds(t.tags, ShareBit(k));
    ClearedBit(ShareState(t.tags), ShareBit(k));
    KindDecides(t, k);
    assert t.share.hold > 1;
    DecBoosted(t, k);
  }

  lemma ClearedBit(s: Tags, b: Tags)
    requires b != 0
    ensures s & !b != b
  {
  }

  lemma DecBoosted(t: Task, k: Kind)
    requires Boosted(t, k) && t.share.hold > 1
    ensures Boosted(t.(share := DecShare(t.share, k)), k)
  {
    hide ShareState;
  }

  lemma PendingCarriesNoShare(t: Task, req: Tags)
    requires ShareState(t.pending) == 0 && ShareState(req) == 0
    ensures var p := UpdatePending(t, req); ShareState(p.tags) == 0 && ShareState(p.pending) == 0
  {
  }

  lemma InstallOk(t: Task, tags: Tags, pending: Tags)
    requires ShareState(tags) == 0 && ShareState(pending) == 0
    ensures Ok(Install(t, tags, pending)) && Plain(Install(t, tags, pending))
  {
  }

  lemma OwnTagsOk(t: Task, req: Tags)
    requires Ok(t) && ShareState(req) == 0
    ensures Ok(OwnTags(t, req))
  {
    hide ShareState, BoostOk, Dprio, InitDprio, Install, UpdatePending;
    var p := UpdatePending(t, req);
    PendingCarriesNoShare(t, req);
    RebaseIsLocal(p.tags);
    SameBoost(t, t.(pending := p.pending));
    InstallOk(t, p.tags, p.pending);
    InstallOk(t, InitDprio(p.tags), p.pending);
  }

  lemma FutexSetOk(t: Task)
    requires Ok(t)
    ensures Ok(FutexSet(t))
  {
    hide Ok, UpdateHold, SetShare, StateOf, ChangeSlice, RaiseDprio, InitDprio;
    UpdateHoldOk(t, Futex);
    FutexTagsPlain();
    var tags := ChangeSlice(RaiseDprio(InitDprio(TAGS_FUTEX)), SLICE3);
    NothingInherited(Futex, tags, []);
    SetShareOk(t, Futex, NO_SHARE, tags, []);
  }

  lemma FutexTagsPlain()
    ensures ShareState(ChangeSlice(RaiseDprio(InitDprio(TAGS_FUTEX)), SLICE3)) == 0
  {
  }

  lemma SetTagsOk(t: Task, req: Tags)
    requires Ok(t) && ShareState(Requested(req)) == 0
    ensures Ok(SetTags(t, req))
  {
    hide Ok, FutexType, FutexSet, UnsetShare, OwnTags, Requested;
    FutexSetOk(t);
    UnsetShareOk(t, Futex);
    OwnTagsOk(t, Requested(req));
  }

  lemma AdjustPrioOk(t: Task, shift: Shift, pickCores: bool, cores: Tags)
    requires Ok(t)
    ensures Ok(AdjustPrio(t, shift, pickCores, cores))
    ensures Identity(AdjustPrio(t, shift, pickCores, cores).tags) == Identity(t.tags)
  {
    hide BoostOk, ShareState, Identity, PickCores, Prio, TagsOk, Shifted;
    ShiftIsLocal(t.tags, shift);
    CoresAreLocal(Shifted(t.tags, shift), cores);
    SameBoost(t, AdjustPrio(t, shift, pickCores, cores));
  }

  lemma ShiftIsLocal(t: Tags, shift: Shift)
    ensures ShareState(Shifted(t, shift)) == ShareState(t) && Identity(Shifted(t, shift)) == Identity(t)
  {
    hide ShareState, Identity, LowerDprio, RaiseDprio, RebaseDprio;
    match shift
    case Lower => LowerIsLocal(t);
    case Raise => RaiseIsLocal(t);
    case Rebase => RebaseIsLocal(t);
    case Keep =>
  }

  lemma DequeueOk(t: Task, sleep: bool, outran: bool)
    requires Ok(t)
    ensures Ok(Dequeue(t, sleep, outran))
  {
  }

  // ---------------------------------------------------------------- runs

  /** `Environment` is any change the rest of the kernel makes to a task; `Link` and `Unlink` are the
      enqueue and tick paths of the run list. */
  datatype Event =
    | BinderCall(from: nat, to: nat, launch: bool, received: bool)
    | MutexWait(from: nat, to: nat, handoff: bool)
    | RwSemWait(from: nat, to: nat, handoff: bool)
    | Unset(t: nat, k: Kind)
    | Request(t: nat, req: Tags)
    | Adjust(t: nat, shift: Shift, pickCores: bool, cores: Tags)
    | Off(t: nat, sleep: bool, outran: bool)
    | Link(t: nat)
    | Unlink(t: nat)
    | Environment(t: nat, fair: bool, rt: bool, exiting: bool, expired: bool, kworkerOff: bool, onRq: bool)

  /** Tasks exist, and tags asked for carry no share bits. */
  predicate Legal(s: seq<Task>, e: Event) {
    match e
    case BinderCall(from, to, _, _) => from < |s| && to < |s|
    case MutexWait(from, to, _) => from < |s| && to < |s|
    case RwSemWait(from, to, _) => from < |s| && to < |s|
    case Unset(t, _) => t < |s|
    case Request(t, req) => t < |s| && ShareState(Requested(req)) == 0
    case Adjust(t, _, _, _) => t < |s|
    case Off(t, _, _) => t < |s|
    case Link(t) => t < |s|
    case Unlink(t) => t < |s|
    case Environment(t, _, _, _, _, _, _) => t < |s|
  }

  function LockSlice(handoff: bool): Tags {
    if handoff then SLICE1 else SLICE2
  }

  function Step(s: seq<Task>, e: Event): (r: seq<Task>)
    requires Legal(s, e)
    ensures |r| == |s|
  {
    match e
    case BinderCall(from, to, launch, received) => s[to := BinderSet(s[from], s[to], launch, received)]
    case MutexWait(from, to, handoff) => s[to := LockSet(s[from], s[to], Mutex, LockSlice(handoff))]
    case RwSemWait(from, to, handoff) => s[to := LockSet(s[from], s[to], RwSem, LockSlice(handoff))]
    case Unset(t, k) => s[t := UnsetShare(s[t], k)]
    case Request(t, req) => s[t := SetTags(s[t], req)]
    case Adjust(t, shift, pickCores, cores) => s[t := AdjustPrio(s[t], shift, pickCores, cores)]
    case Off(t, sleep, outran) => s[t := Dequeue(s[t], sleep, outran)]
    case Link(t) => s[t := s[t].(linked := true)]
    case Unlink(t) => s[t := s[t].(linked := false)]
    case Environment(t, fair, rt, exiting, expired, kworkerOff, onRq) =>
      s[t := s[t].(fair := fair, rt := rt, exiting := exiting, expired := expired, kworkerOff := kworkerOff,
          onRq := onRq)]
  }

  predicate AllOk(s: seq<Task>) {
    forall i :: 0 <= i < |s| ==> Ok(s[i])
  }

  lemma StepKeepsOk(s: seq<Task>, e: Event)
    requires AllOk(s) && Legal(s, e)
    ensures AllOk(Step(s, e))
  {
    hide Ok, BinderSet, LockSet, UnsetShare, SetTags, AdjustPrio, Dequeue, ShareState, Requested, LockSlice;
    match e
    case BinderCall(from, to, launch, received) => BinderSetOk(s[from], s[to], launch, received);
    case MutexWait(from, to, handoff) => LockSetOk(s[from], s[to], Mutex, LockSlice(handoff));
    case RwSemWait(from, to, handoff) => LockSetOk(s[from], s[to], RwSem, LockSlice(handoff));
    case Unset(t, k) => UnsetShareOk(s[t], k);
    case Request(t, req) => SetTagsOk(s[t], req);
    case Adjust(t, shift, pickCores, cores) => AdjustPrioOk(s[t], shift, pickCores, cores);
    case Off(t, sleep, outran) => DequeueOk(s[t], sleep, outran);
    case Link(t) => EnvironmentOk(s[t], s[t].(linked := true));
    case Unlink(t) => EnvironmentOk(s[t], s[t].(linked := false));
    case Environment(t, fair, rt, exiting, expired, kworkerOff, onRq) =>
      EnvironmentOk(s[t], s[t].(fair := fair, rt := rt, exiting := exiting, expired := expired,
          kworkerOff := kworkerOff, onRq := onRq));
  }

  lemma EnvironmentOk(t: Task, u: Task)
    requires Ok(t) && u.tags == t.tags && u.share == t.share && u.chain == t.chain && u.pending == t.pending
    ensures Ok(u)
  {
  }

  ghost predicate LegalRun(s: seq<Task>, events: seq<Event>)
    decreases |events|
  {
    events == [] || (Legal(s, events[0]) && LegalRun(Step(s, events[0]), events[1..]))
  }

  ghost function Run(s: seq<Task>, events: seq<Event>): (r: seq<Task>)
    requires LegalRun(s, events)
    ensures |r| == |s|
    decreases |events|
  {
    if events == [] then s else Run(Step(s, events[0]), events[1..])
  }

  lemma {:induction false} RunKeepsOk(s: seq<Task>, events: seq<Event>)
    requires AllOk(s) && LegalRun(s, events)
    ensures AllOk(Run(s, events))
    decreases |events|
  {
    if events != [] {
      StepKeepsOk(s, events[0]);
      RunKeepsOk(Step(s, events[0]), events[1..]);
    }
  }

  predicate Fresh(t: Task) {
    t.tags == 0 && t.share == NO_SHARE && t.pending == 0 && t.chain == []
  }

  /** In every run from untagged tasks, no boost ever travels more than five hops. */
  lemma EveryChainIsShort(s: seq<Task>, events: seq<Event>, i: nat)
    requires (forall k :: 0 <= k < |s| ==> Fresh(s[k])) && LegalRun(s, events) && i < |s|
    ensures |Run(s, events)[i].chain| <= 5
    ensures Ok(Run(s, events)[i])
  {
    hide Ok, Run;
    forall k | 0 <= k < |s|
      ensures Ok(s[k])
    {
      FreshOk(s[k]);
    }
    RunKeepsOk(s, events);
    ChainsAreShort(Run(s, events)[i]);
  }

  lemma FreshOk(t: Task)
    requires Fresh(t)
    ensures Ok(t)
  {
  }

  // ---------------------------------------------------------------- what a hop hands on

  lemma HopHandsOn(to: Task, k: Kind, share: Share, tags: Tags, chain: seq<Kind>, donor: Tags)
    requires StateOf(to).NoTag? && !to.target
    requires if Count(share, k) == 0 then ShareState(tags) == 0 else SharedBy(tags, k)
    requires Identity(tags) == Identity(donor) && TagsOk(donor)
    ensures var r := SetShare(to, k, share, tags, chain);
            && r.chain == chain + [k] && r.share == IncShare(share, k)
            && Identity(r.tags) == Identity(donor) && TagsOk(r.tags)
  {
    hide ShareState, Identity, TagsOk, IncTags, ClearFlag, IncShare;
    IncTagsShares(k, share, tags);
    IdentityDecides(donor, IncTags(ClearFlag(tags, FLAG_ONESHOT), share, k));
  }

  /** A UX task waiting in a binder call boosts an untagged receiver exactly if its own boost made
      fewer than three hops, all binder; the receiver then has the donor's identity. */
  lemma BinderPassesOn(from: Task, to: Task, launch: bool, received: bool)
    requires Ok(from) && Ok(to) && StateOf(from).Real? && StateOf(to).NoTag? && !to.target
    ensures var r := BinderSet(from, to, launch, received);
            if |from.chain| < 3 && from.chain == Repeat(Binder, |from.chain|)
            then r.chain == from.chain + [Binder] && Identity(r.tags) == Identity(from.tags) && TagsOk(r.tags)
                && r.share.binder == |r.chain|
            else r == to
  {
    RealHasTags(from);
    hide Ok, ShareState, SharedBy, BinderFromUx, StateOf, Identity, TagsOk, Repeat;
    BinderReach(from);
    BinderUxHandsOn(from, to, launch);
  }

  lemma BinderUxHandsOn(from: Task, to: Task, launch: bool)
    requires StateOf(to).NoTag? && !to.target && TagsOk(from.tags)
    requires SharedBy(from.tags, Binder) ==> from.share.binder > 0
    ensures var r := BinderFromUx(from, to, launch);
            if ShareState(from.tags) == 0
            then r.chain == from.chain + [Binder] && Identity(r.tags) == Identity(from.tags) && TagsOk(r.tags)
                && r.share.binder == 1
            else if SharedBy(from.tags, Binder) && from.share.binder < 3
            then r.chain == from.chain + [Binder] && Identity(r.tags) == Identity(from.tags) && TagsOk(r.tags)
                && r.share.binder == from.share.binder + 1
            else r == to
  {
    hide BinderTags, ShareState, SharedBy, SetShare, StateOf, Identity, TagsOk;
    var tags := BinderTags(from.tags, launch);
    BinderTagsKeep(from.tags, launch);
    SameShareState(from.tags, tags, Binder);
    if ShareState(from.tags) == 0 {
      HopHandsOn(to, Binder, NO_SHARE, tags, from.chain, from.tags);
    } else if SharedBy(from.tags, Binder) && from.share.binder < 3 {
      HopHandsOn(to, Binder, from.share, tags, from.chain, from.tags);
    }
  }

  lemma RealHasTags(t: Task)
    requires StateOf(t).Real?
    ensures TagsOk(t.tags)
  {
  }

  lemma SameShareState(a: Tags, b: Tags, k: Kind)
    requires ShareState(a) == ShareState(b)
    ensures SharedBy(a, k) == SharedBy(b, k)
  {
  }

  lemma BinderReach(t: Task)
    requires Ok(t)
    ensures t.chain == Repeat(Binder, |t.chain|) <==> ShareState(t.tags) == 0 || SharedBy(t.tags, Binder)
    ensures ShareState(t.tags) == 0 ==> t.share == NO_SHARE && t.chain == []
    ensures SharedBy(t.tags, Binder) ==> t.share.binder == |t.chain| > 0
  {
    hide ShareState;
    BitsOfKinds();
    if t.chain != [] {
      assert Repeat(Binder, |t.chain|)[|t.chain| - 1] == Binder;
    }
  }

  /** A UX task waiting for a lock boosts an untagged holder exactly if it has its own tags, or got
      them over binder, or over one hop of the same kind of lock. */
  lemma LockPassesOn(from: Task, to: Task, k: Kind, slice: Tags)
    requires Ok(from) && Ok(to) && StateOf(from).Real? && StateOf(to).NoTag? && !to.target && (k.Mutex? || k.RwSem?)
    ensures var r := LockSet(from, to, k, slice);
            if ShareState(from.tags) == 0 || SharedBy(from.tags, Binder) ||
               (SharedBy(from.tags, k) && Count(from.share, k) == 1)
            then r.chain == from.chain + [k] && Identity(r.tags) == Identity(from.tags) && TagsOk(r.tags)
            else r == to
  {
    RealHasTags(from);
    hide Ok, ShareState, SharedBy, SetShare, StateOf, ChangeSlice, IgnoreShare, Identity, TagsOk;
    LockReach(from, k);
    if ShareState(from.tags) == 0 || SharedBy(from.tags, k) {
      SliceIsLocal(from.tags, slice);
      SameShareState(from.tags, ChangeSlice(from.tags, slice), k);
      var share := if ShareState(from.tags) == 0 then NO_SHARE else from.share;
      HopHandsOn(to, k, share, ChangeSlice(from.tags, slice), from.chain, from.tags);
    } else {
      ShareIgnored(from.tags);
      SliceIsLocal(IgnoreShare(from.tags), slice);
      HopHandsOn(to, k, NO_SHARE, ChangeSlice(IgnoreShare(from.tags), slice), from.chain, from.tags);
    }
  }

  lemma LockReach(t: Task, k: Kind)
    requires Ok(t)
    ensures SharedBy(t.tags, k) ==> 1 <= Count(t.share, k) <= Limit(k) && ShareState(t.tags) != 0
    ensures SharedBy(t.tags, k) && k != Binder ==> !SharedBy(t.tags, Binder)
  {
  }

  const BYSTANDER := Task(0, NO_SHARE, 0, false, false, true, false, false, false, false, false, false, [])

  lemma BystanderState()
    ensures StateOf(BYSTANDER).NoTag? && !BYSTANDER.target && Ok(BYSTANDER)
  {
  }

  predicate Runnable(t: Task) {
    t.fair && !t.exiting && !t.expired && !t.kworkerOff
  }

  lemma SetShareKeepsRunnable(to: Task, k: Kind, share: Share, tags: Tags, chain: seq<Kind>)
    requires Runnable(to)
    ensures Runnable(SetShare(to, k, share, tags, chain))
  {
  }

  lemma BinderKeepsRunnable(from: Task, to: Task, launch: bool, received: bool)
    requires Runnable(to)
    ensures Runnable(BinderSet(from, to, launch, received))
  {
    hide StateOf, SharedBy, ShareState, TagsOk, BinderTags, SetShare, Runnable, UpdateHold, ClearFlag, HasFlag;
    SetShareKeepsRunnable(to, Binder, NO_SHARE, BinderTags(from.tags, launch), from.chain);
    SetShareKeepsRunnable(to, Binder, from.share, BinderTags(from.tags, launch), from.chain);
    SetShareKeepsRunnable(to, Binder, NO_SHARE, RT_TAGS, []);
    SetShareKeepsRunnable(to, Binder, NO_SHARE, ClearFlag(RT_TAGS, FLAG_ABINDER), []);
    HoldKeepsRunnable(to);
  }

  lemma HoldKeepsRunnable(to: Task)
    requires Runnable(to)
    ensures Runnable(UpdateHold(to, Binder))
  {
  }

  lemma LockKeepsRunnable(from: Task, to: Task, k: Kind, slice: Tags)
    requires Runnable(to)
    ensures Runnable(LockSet(from, to, k, slice))
  {
    hide StateOf, SharedBy, ShareState, SetShare, Runnable, ChangeSlice, IgnoreShare;
    SetShareKeepsRunnable(to, k, NO_SHARE, ChangeSlice(from.tags, slice), from.chain);
    SetShareKeepsRunnable(to, k, from.share, ChangeSlice(from.tags, slice), from.chain);
    SetShareKeepsRunnable(to, k, NO_SHARE, ChangeSlice(IgnoreShare(from.tags), slice), from.chain);
    SetShareKeepsRunnable(to, k, NO_SHARE, ChangeSlice(RT_TAGS, slice), []);
  }

  lemma TaggedIsReal(t: Task)
    requires TagsOk(t.tags) && Runnable(t)
    ensures StateOf(t).Real?
  {
  }

  lemma BinderHop(t: Task)
    requires Ok(t) && StateOf(t).Real? && |t.chain| < 3 && t.chain == Repeat(Binder, |t.chain|)
    ensures var r := BinderSet(t, BYSTANDER, false, false);
            Ok(r) && StateOf(r).Real? && r.chain == t.chain + [Binder] && Identity(r.tags) == Identity(t.tags)
  {
    hide Ok, BinderSet, StateOf, TagsOk, Identity;
    BystanderState();
    BinderPassesOn(t, BYSTANDER, false, false);
    BinderSetOk(t, BYSTANDER, false, false);
    BinderKeepsRunnable(t, BYSTANDER, false, false);
    TaggedIsReal(BinderSet(t, BYSTANDER, false, false));
  }

  lemma MutexHop(t: Task)
    requires Ok(t) && StateOf(t).Real? && t.chain != [] && |t.chain| < 5
    requires t.chain == [Binder, Binder, Binder] || t.chain == [Binder, Binder, Binder, Mutex]
    ensures var r := LockSet(t, BYSTANDER, Mutex, SLICE2);
            Ok(r) && StateOf(r).Real? && r.chain == t.chain + [Mutex] && Identity(r.tags) == Identity(t.tags)
  {
    hide Ok, LockSet, StateOf, TagsOk, Identity, SharedBy, ShareState;
    BystanderState();
    LastHopDecides(t);
    LockReach(t, Mutex);
    assert t.chain[2] == Binder;
    LockPassesOn(t, BYSTANDER, Mutex, SLICE2);
    LockSetOk(t, BYSTANDER, Mutex, SLICE2);
    LockKeepsRunnable(t, BYSTANDER, Mutex, SLICE2);
    TaggedIsReal(LockSet(t, BYSTANDER, Mutex, SLICE2));
  }

  /** The counter is the length of the last stretch of the chain. */
  lemma LastHopDecides(t: Task)
    requires Ok(t) && t.chain != []
    ensures var k := t.chain[|t.chain| - 1];
            && SharedBy(t.tags, k)
            && Count(t.share, k) <= |t.chain|
            && (forall i :: |t.chain| - Count(t.share, k) <= i < |t.chain| ==> t.chain[i] == k)
            && (forall i :: 0 <= i < |t.chain| - Count(t.share, k) ==> t.chain[i] == Binder)
  {
    hide ShareState;
  }

  /** The bound is reached: three calls and two mutexes carry a boost five tasks far, and a sixth
      gets nothing. */
  lemma FiveHopsHappen(donor: Task)
    requires Plain(donor) && Ok(donor) && StateOf(donor).Real?
    ensures var a := BinderSet(donor, BYSTANDER, false, false);
            var b := BinderSet(a, BYSTANDER, false, false);
            var c := BinderSet(b, BYSTANDER, false, false);
            var d := LockSet(c, BYSTANDER, Mutex, SLICE2);
            var e := LockSet(d, BYSTANDER, Mutex, SLICE2);
            && e.chain == [Binder, Binder, Binder, Mutex, Mutex] && Identity(e.tags) == Identity(donor.tags)
            && BinderSet(c, BYSTANDER, false, false) == BYSTANDER
            && LockSet(e, BYSTANDER, Mutex, SLICE2) == BYSTANDER
  {
    hide Ok, BinderSet, LockSet, StateOf, Identity, SharedBy, ShareState;
    BinderHop(donor);
    var a := BinderSet(donor, BYSTANDER, false, false);
    BinderHop(a);
    var b := BinderSet(a, BYSTANDER, false, false);
    BinderHop(b);
    var c := BinderSet(b, BYSTANDER, false, false);
    MutexHop(c);
    var d := LockSet(c, BYSTANDER, Mutex, SLICE2);
    MutexHop(d);
    var e := LockSet(d, BYSTANDER, Mutex, SLICE2);
    BystanderState();
    BinderPassesOn(c, BYSTANDER, false, false);
    LastHopDecides(e);
    assert e.chain[4] == Mutex && e.chain[3] == Mutex && e.chain[2] == Binder;
    LockReach(e, Mutex);
    LockPassesOn(e, BYSTANDER, Mutex, SLICE2);
  }

  // ---------------------------------------------------------------- how a boost ends

  /** One holder less: the boost stays while others hold it; the last one ends it, except that a
      queued binder boost is kept for one more sleep. */
  lemma UnsetTakesOneHolder(t: Task, k: Kind)
    requires Boosted(t, k) && t.init && !HasFlag(t.tags, FLAG_ONESHOT)
    ensures UnsetShare(t, k) ==
              if t.share.hold > 1 then t.(share := t.share.(hold := t.share.hold - 1))
              else if t.linked && k.Binder? then t.(tags := SetFlag(t.tags, FLAG_ONESHOT))
              else Cleared(t).(linked := false)
  {
    hide ShareState, SetFlag, ClearFlag, HasFlag;
    ShareBitInField(k);
    ShareAdds(t.tags, ShareBit(k));
    ClearedBit(ShareState(t.tags), ShareBit(k));
  }

  lemma OneshotIsSet(t: Tags)
    ensures HasFlag(SetFlag(t, FLAG_ONESHOT), FLAG_ONESHOT)
  {
  }

  /** The kept boost is gone after that sleep. */
  lemma OneshotEndsAtSleep(t: Task, outran: bool)
    requires Boosted(t, Binder) && t.init && !HasFlag(t.tags, FLAG_ONESHOT) && t.linked && t.share.hold == 1
    ensures Dequeue(UnsetShare(t, Binder), true, outran) == Cleared(t).(linked := false)
  {
    hide ShareState, SetFlag, HasFlag;
    UnsetTakesOneHolder(t, Binder);
    OneshotIsSet(t.tags);
    FlagBits(FLAG_ONESHOT);
    FlagKeepsShare(t.tags, FLAG_ONESHOT);
    ShareBitInField(Binder);
  }

  function UnsetTimes(t: Task, k: Kind, n: nat): Task {
    if n == 0 then t else UnsetShare(UnsetTimes(t, k, n - 1), k)
  }

  /** Off the run lists a boost survives exactly as many ends as it is held, less one: the record is
      the same but for the hold count until the last, and cleared after. */
  lemma {:induction false} EndsBalanceHolds(t: Task, k: Kind, n: nat)
    requires Boosted(t, k) && t.init && !HasFlag(t.tags, FLAG_ONESHOT) && !t.linked
    requires n <= t.share.hold
    ensures UnsetTimes(t, k, n) ==
              if n < t.share.hold then t.(share := t.share.(hold := t.share.hold - n)) else Cleared(t)
  {
    hide UnsetShare, Cleared, HasFlag, ShareState;
    if n > 0 {
      EndsBalanceHolds(t, k, n - 1);
      var u := t.(share := t.share.(hold := t.share.hold - (n - 1)));
      FewerHolds(t, k, n - 1);
      UnsetTakesOneHolder(u, k);
      ClearedAlike(t, u);
    }
  }

  lemma FewerHolds(t: Task, k: Kind, n: nat)
    requires Boosted(t, k) && n < t.share.hold
    ensures Boosted(t.(share := t.share.(hold := t.share.hold - n)), k)
  {
    hide ShareState;
  }

  lemma ClearedAlike(t: Task, u: Task)
    requires u == t.(share := u.share) && !t.linked
    ensures Cleared(u) == Cleared(t) == Cleared(u).(linked := false)
  {
  }
}
