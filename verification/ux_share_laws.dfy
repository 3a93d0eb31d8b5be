/** What each operation on an inherited boost or on own tags leaves in the record, field by field. */
module UxShareLaws {
  import opened UxTags
  import opened UxShare

  // ---------------------------------------------------------------- who counts as a UX task

  /** A fair task with valid tags counts as a UX task unless it exits, used up its limit, or is a kernel
      worker while those are switched off; without valid tags it is free to be boosted. */
  lemma RealExactly(t: Task)
    ensures StateOf(t).Real? <==>
              && t.fair && TagsOk(t.tags) && !t.exiting && !t.expired
              && !(t.kworkerOff && t.tags & 0x2000_0000 == 0x2000_0000)
    ensures StateOf(t).NoTag? <==> t.fair && !TagsOk(t.tags)
    ensures StateOf(t).NotFair? <==> !t.fair
  {
  }

  // ---------------------------------------------------------------- own tags

  /** Tags that ask for no dynamic priority get the base one. */
  function Initial(tags: Tags): Tags {
    if tags != 0 && tags & 0x7 == 0 then tags | 0x3 else tags
  }

  predicate OwnTagged(t: Task) {
    t.tags != 0 && ShareState(t.tags) == 0
  }

  /** `tags` are in force on their own: no boost, no counters, no chain; and a runnable task with valid
      tags is linked, kernel workers only while they are switched on. */
  predicate InForce(t: Task, u: Task, tags: Tags, parked: Tags) {
    && u.tags == tags && u.share == NO_SHARE && u.chain == []
    && u.pending == (if t.init then parked else 0) && (u.init <==> tags != 0)
    && (u.linked <==> t.linked || (t.onRq && TagsOk(tags) && !(t.kworkerOff && tags & 0x2000_0000 == 0x2000_0000)))
    && u == t.(tags := u.tags, share := u.share, chain := u.chain, pending := u.pending, init := u.init,
               linked := u.linked)
  }

  lemma InstallPuts(t: Task, tags: Tags, parked: Tags)
    ensures InForce(t, Install(t, tags, parked), tags, parked)
  {
    hide TagsOk;
  }

  lemma InitialIs(tags: Tags)
    ensures Initial(tags) == if tags != 0 && Dprio(tags) == 0 then InitDprio(tags) else tags
  {
  }

  /** Which of two words is in force and which is parked. */
  lemma PendingIs(t: Task, req: Tags)
    ensures UpdatePending(t, req) ==
              if !OwnTagged(t) || (req == 0 && t.pending == 0) then Pending(req, t.pending, false)
              else if req == 0 then
                if t.tags & 0x10_0000 != 0 then Pending(t.pending, 0, false) else Pending(req, 0, true)
              else if t.pending != 0 then Pending(req, t.pending, true)
              else if req & 0xF8 > t.tags & 0xF8 then Pending(req, t.tags, false)
              else Pending(req, req, true)
  {
    StaticPart(req);
    StaticPart(t.tags);
  }

  lemma StaticPart(tags: Tags)
    ensures Prio(tags & !0x7) == tags & 0xF8
  {
  }

  /** A request on an untagged or boosted task takes force at once and ends the boost. */
  lemma RequestTakesOver(t: Task, req: Tags)
    requires !OwnTagged(t) && (req != 0 || t.tags != 0)
    ensures InForce(t, OwnTags(t, req), Initial(req), t.pending)
  {
    hide UpdatePending, Install, InForce, Dprio, InitDprio, OwnTagged;
    PendingIs(t, req);
    InitialIs(req);
    hide Initial;
    InstallPuts(t, Initial(req), t.pending);
  }

  /** A second request on a task with own tags and nothing parked: the higher static priority of the two
      is in force afterwards and the other word is parked. */
  lemma SecondRequestParks(t: Task, req: Tags)
    requires OwnTagged(t) && t.pending == 0 && Initialised(t) && req != 0
    ensures var u := OwnTags(t, req);
            && (if req & 0xF8 > t.tags & 0xF8 then InForce(t, u, Initial(req), t.tags)
                else u == t.(pending := req))
            && u.pending & 0xF8 <= u.tags & 0xF8
            && ((u.tags == Initial(req) && u.pending == t.tags) || (u.tags == t.tags && u.pending == req))
  {
    PendingIs(t, req);
    InitialIs(req);
    InitialKeepsStatic(req);
    hide UpdatePending, Install, Dprio, InitDprio, OwnTagged, Initial;
    InstallPuts(t, Initial(req), t.tags);
  }

  lemma InitialKeepsStatic(tags: Tags)
    ensures Initial(tags) & 0xF8 == tags & 0xF8
  {
  }

  /** A third request is ignored. */
  lemma ThirdRequestIgnored(t: Task, req: Tags)
    requires OwnTagged(t) && t.pending != 0 && req != 0
    ensures OwnTags(t, req) == t
  {
    PendingIs(t, req);
    hide UpdatePending, Install, Dprio, InitDprio, ShareState;
  }

  /** Cancelling own tags: with nothing parked they go; from exact tags the parked word takes over; from
      any other it is forgotten and the tags stay. */
  lemma CancelUnparks(t: Task)
    requires OwnTagged(t)
    ensures var u := OwnTags(t, 0);
            if t.pending == 0 then InForce(t, u, 0, 0)
            else if t.tags & 0x10_0000 != 0 then InForce(t, u, Initial(t.pending), 0)
            else u == t.(pending := 0)
  {
    PendingIs(t, 0);
    InitialIs(t.pending);
    assert t.tags != 0 && Initial(0) == 0;
    hide UpdatePending, Install, InForce, Dprio, InitDprio, OwnTagged, Initial;
    InstallPuts(t, 0, 0);
    InstallPuts(t, Initial(t.pending), 0);
  }

  /** The tag interface: the futex word boosts the owner of a futex, the same type without priority ends
      that boost, and everything else is a request for own tags. */
  lemma SetTagsRoutes(t: Task, req: Tags)
    ensures SetTags(t, req) ==
              if req == 0x810_0420 then FutexSet(t)
              else if req & !0xFF != 0x810_0400 then OwnTags(t, if req & 0xFF == 0 then 0 else req)
              else if req & 0xFF == 0 && t.share.futex > 0 then UnsetShare(t, Futex)
              else t
  {
    hide OwnTags, FutexSet, UnsetShare;
  }

  function Low(t: Tags): Tags {
    t & 0x7
  }

  function Cores(t: Tags): Tags {
    t & 0x7000
  }

  function Rest(t: Tags): Tags {
    t & 0xFFFF_8FF8
  }

  /** The dynamic priority after a shift: one less or more within its three bits, or the base. */
  function ShiftedLow(d: Tags, shift: Shift): Tags {
    match shift
    case Lower => if d == 0 then 0 else d - 1
    case Raise => if d == 7 then 7 else d + 1
    case Rebase => 3
    case Keep => d
  }

  /** `b` is `a` with the dynamic priority shifted and perhaps other cores; the rest of the word stays. */
  predicate Adjusted(a: Tags, b: Tags, shift: Shift, pickCores: bool, cores: Tags) {
    && Low(b) == ShiftedLow(Low(a), shift)
    && Cores(b) == (if pickCores then Cores(cores) else Cores(a))
    && Rest(b) == Rest(a)
  }

  lemma AdjustedTags(a: Tags, shift: Shift, pickCores: bool, cores: Tags)
    ensures var b := Shifted(a, shift);
            Adjusted(a, if pickCores then PickCores(b, cores) else b, shift, pickCores, cores)
  {
    hide Shifted, PickCores, Low, Cores, Rest, ShiftedLow;
    ShiftComputes(a, shift);
    CoresPicked(Shifted(a, shift), cores);
  }

  /** Adjusting changes tags with a priority only, and nothing but the tags. */
  lemma AdjustPrioComputes(t: Task, shift: Shift, pickCores: bool, cores: Tags)
    ensures var u := AdjustPrio(t, shift, pickCores, cores);
            && u == t.(tags := u.tags)
            && if Prio(t.tags) == 0 || !TagsOk(t.tags) then u == t
               else Adjusted(t.tags, u.tags, shift, pickCores, cores)
  {
    hide TagsOk, Shifted, PickCores, Prio, Adjusted;
    AdjustedTags(t.tags, shift, pickCores, cores);
  }

  lemma ShiftComputes(t: Tags, shift: Shift)
    ensures Low(Shifted(t, shift)) == ShiftedLow(Low(t), shift)
    ensures Cores(Shifted(t, shift)) == Cores(t) && Rest(Shifted(t, shift)) == Rest(t)
  {
    hide Low, Cores, Rest, RaiseDprio, LowerDprio, RebaseDprio;
    match shift
    case Lower =>
      LowIsDprio(t);
      LowIsDprio(LowerDprio(t));
      LowerStaysInField(t);
      AboveLow(LowerDprio(t), t);
    case Raise =>
      LowIsDprio(t);
      LowIsDprio(RaiseDprio(t));
      RaiseStaysInField(t);
      AboveLow(RaiseDprio(t), t);
    case Rebase => RebaseComputes(t);
    case Keep =>
  }

  lemma LowIsDprio(t: Tags)
    ensures Low(t) == Dprio(t)
  {
  }

  lemma RebaseComputes(t: Tags)
    ensures Low(RebaseDprio(t)) == 3 && Cores(RebaseDprio(t)) == Cores(t) && Rest(RebaseDprio(t)) == Rest(t)
  {
  }

  lemma AboveLow(s: Tags, t: Tags)
    requires s & !0x7 == t & !0x7
    ensures Cores(s) == Cores(t) && Rest(s) == Rest(t)
  {
  }

  lemma CoresPicked(t: Tags, cores: Tags)
    ensures Cores(PickCores(t, cores)) == Cores(cores)
    ensures Low(PickCores(t, cores)) == Low(t) && Rest(PickCores(t, cores)) == Rest(t)
  {
    hide Cores, Low, Rest, PickCores;
    PickedCores(t, cores);
    PickedLow(t, cores);
    PickedRest(t, cores);
  }

  lemma PickedCores(t: Tags, cores: Tags)
    ensures Cores(PickCores(t, cores)) == Cores(cores)
  {
  }

  lemma PickedLow(t: Tags, cores: Tags)
    ensures Low(PickCores(t, cores)) == Low(t)
  {
  }

  lemma PickedRest(t: Tags, cores: Tags)
    ensures Rest(PickCores(t, cores)) == Rest(t)
  {
  }

  // ---------------------------------------------------------------- handing on and ending

  /** The flag of a boost that is kept for one more sleep. */
  predicate LastSleep(t: Tags) {
    t & 0x100_0000 == 0x100_0000
  }

  function WithLastSleep(t: Tags): Tags {
    t | 0x100_0000
  }

  function NoLastSleep(t: Tags): Tags {
    t & !0x100_0000
  }

  lemma OneshotIs(tags: Tags)
    ensures HasFlag(tags, FLAG_ONESHOT) <==> LastSleep(tags)
    ensures SetFlag(tags, FLAG_ONESHOT) == WithLastSleep(tags)
    ensures ClearFlag(tags, FLAG_ONESHOT) == NoLastSleep(tags)
  {
  }

  /** Handing on a boost: tasks of the display targets and tasks that are neither fair nor real-time take
      none; any other has the donated tags, without the flag of a last sleep and with the bit of this
      way, the donated 4-bit counters with one hop more and held once, and is linked if it is runnable. */
  lemma SetShareComputes(to: Task, k: Kind, share: Share, tags: Tags, chain: seq<Kind>)
    requires Count(share, k) <= 15
    ensures var r := SetShare(to, k, share, tags, chain);
            if to.target || (!to.fair && !to.rt) then r == to
            else
              && r.tags == (if Count(share, k) == 0 then NoLastSleep(tags) | ShareBit(k) else NoLastSleep(tags))
              && Count(r.share, k) == (if Count(share, k) == 15 then 0 else Count(share, k) + 1) && r.share.hold == 1
              && (forall j :: j != k ==> Count(r.share, j) == Count(share, j))
              && r.chain == chain + [k] && r.init && r.pending == (if to.init then to.pending else 0)
              && (r.linked <==> to.linked || to.onRq)
              && r == to.(tags := r.tags, share := r.share, chain := r.chain, init := r.init, pending := r.pending,
                          linked := r.linked)
  {
    hide IncTags, IncShare, ClearFlag, ShareBit, NoLastSleep, SetFlag;
    OneshotIs(tags);
    IncTagsIs(k, share, NoLastSleep(tags));
    IncShareIs(k, share);
    hide Count;
  }

  lemma IncTagsIs(k: Kind, share: Share, tags: Tags)
    ensures IncTags(tags, share, k) == if Count(share, k) == 0 then tags | ShareBit(k) else tags
  {
    hide ShareBit, Count;
  }

  lemma IncShareIs(k: Kind, share: Share)
    requires Count(share, k) <= 15
    ensures var r := IncShare(share, k);
            && Count(r, k) == (if Count(share, k) == 15 then 0 else Count(share, k) + 1) && r.hold == 1
            && forall j :: j != k ==> Count(r, j) == Count(share, j)
  {
  }

  /** Ending a boost on any record: nothing on one that has none or is waiting for its last sleep; one
      holder less if it came this way and others hold it; otherwise it is over, except that a queued
      task that is released by binder keeps its tags for one more sleep. */
  lemma UnsetShareComputes(t: Task, k: Kind)
    ensures UnsetShare(t, k) ==
              if !t.init || LastSleep(t.tags) || (t.tags == 0 && t.share == NO_SHARE) then t
              else if SharedBy(t.tags, k) && t.share.hold > 1 then t.(share := t.share.(hold := t.share.hold - 1))
              else if t.linked && k == Binder then t.(tags := WithLastSleep(t.tags))
              else t.(tags := 0, share := NO_SHARE, init := false, chain := [], linked := false)
  {
    hide SharedBy, DecTags, DecShare, Ended, HasFlag, SetFlag, LastSleep, WithLastSleep, NoLastSleep;
    DecDecides(t, k);
    OneshotIs(t.tags);
    EndedIs(t, k);
    DecHold(t.share, k);
  }

  lemma EndedIs(t: Task, k: Kind)
    ensures Ended(t, k) ==
              if t.linked && k == Binder then t.(tags := SetFlag(t.tags, FLAG_ONESHOT))
              else t.(tags := 0, share := NO_SHARE, init := false, chain := [], linked := false)
  {
    hide SetFlag;
  }

  /** One holder less; the last one takes the counter of its way along. */
  lemma DecHold(share: Share, k: Kind)
    ensures var r := DecShare(share, k);
            if share.hold > 1 then r == share.(hold := share.hold - 1)
            else Count(r, k) == 0 && r.hold == 0 && forall j :: j != k ==> Count(r, j) == Count(share, j)
  {
  }

  /** A boost survives a decrement of a way exactly if it came that way and is held more than once. */
  lemma DecDecides(t: Task, k: Kind)
    ensures SharedBy(DecTags(t.tags, t.share, k), k) <==> SharedBy(t.tags, k) && t.share.hold > 1
    ensures t.share.hold > 1 ==> DecTags(t.tags, t.share, k) == t.tags
  {
    hide ShareState, SetFlag, ClearFlag, ShareBit;
    ShareBitInField(k);
    ShareAdds(t.tags, ShareBit(k));
    ClearedBit(ShareState(t.tags), ShareBit(k));
  }

  /** A boost that is asked for again the same way is held once more, up to four times over binder and
      futexes, and is no longer for one sleep only. */
  lemma UpdateHoldComputes(t: Task, k: Kind)
    requires t.share.hold < 15
    ensures var u := UpdateHold(t, k);
            if !SharedBy(t.tags, k) || !StateOf(t).Real? then u == t
            else
              && u == t.(tags := NoLastSleep(t.tags), share := t.share.(hold := u.share.hold))
              && u.share.hold == t.share.hold + if (k == Binder || k == Futex) && t.share.hold < 4 then 1 else 0
  {
    OneshotIs(t.tags);
    NothingToDrop(t.tags);
    hide SharedBy, StateOf, HasFlag, LastSleep, NoLastSleep;
  }

  lemma NothingToDrop(tags: Tags)
    ensures !LastSleep(tags) ==> NoLastSleep(tags) == tags
  {
  }

  /** A linked task leaves its list; its boost ends there if it was for one more sleep and this is it, or
      if it outran its slice. Own tags stay. */
  lemma DequeueComputes(t: Task, sleep: bool, outran: bool)
    ensures Dequeue(t, sleep, outran) ==
              if !t.linked then t
              else if ShareState(t.tags) != 0 && (outran || (sleep && LastSleep(t.tags)))
              then t.(tags := 0, share := NO_SHARE, init := false, chain := [], linked := false)
              else t.(linked := false)
  {
    hide ShareState;
  }

  // ---------------------------------------------------------------- slices and priorities handed on

  lemma HandedTags(tags: Tags, share: Share, k: Kind)
    ensures var r := IncTags(ClearFlag(tags, FLAG_ONESHOT), share, k);
            Prio(r) == Prio(tags) && Slice(r) == Slice(tags) && HasFlag(r, FLAG_ABINDER) == HasFlag(tags, FLAG_ABINDER)
  {
    ShareBitLow(k);
    var u := ClearFlag(tags, FLAG_ONESHOT);
    HandedBits(tags, ShareBit(k));
    hide ShareBit;
  }

  lemma ShareBitLow(k: Kind)
    ensures ShareBit(k) & 0x40_0FFF == 0
  {
  }

  lemma HandedBits(tags: Tags, b: Tags)
    requires b & 0x40_0FFF == 0
    ensures var u := SetFlag(ClearFlag(tags, FLAG_ONESHOT), b);
            Prio(u) == Prio(tags) && Slice(u) == Slice(tags) && HasFlag(u, FLAG_ABINDER) == HasFlag(tags, FLAG_ABINDER)
    ensures var u := ClearFlag(tags, FLAG_ONESHOT);
            Prio(u) == Prio(tags) && Slice(u) == Slice(tags) && HasFlag(u, FLAG_ABINDER) == HasFlag(tags, FLAG_ABINDER)
  {
    hide Prio, Slice, HasFlag, SetFlag, ClearFlag;
    var u := ClearFlag(tags, FLAG_ONESHOT);
    LowBits(tags, u);
    ClearedLow(tags);
    SetLow(u, b);
    LowBits(u, SetFlag(u, b));
  }

  lemma ClearedLow(tags: Tags)
    ensures ClearFlag(tags, FLAG_ONESHOT) & 0x40_0FFF == tags & 0x40_0FFF
  {
  }

  lemma SetLow(tags: Tags, b: Tags)
    requires b & 0x40_0FFF == 0
    ensures SetFlag(tags, b) & 0x40_0FFF == tags & 0x40_0FFF
  {
  }

  lemma LowBits(a: Tags, b: Tags)
    ensures a & 0x40_0FFF == b & 0x40_0FFF ==>
              Prio(a) == Prio(b) && Slice(a) == Slice(b) && HasFlag(a, FLAG_ABINDER) == HasFlag(b, FLAG_ABINDER)
  {
  }

  lemma DprioOfPrio(a: Tags, b: Tags)
    requires Prio(a) == Prio(b)
    ensures Dprio(a) == Dprio(b)
  {
  }

  /** A boost passed on by a binder call runs on the slice and with the dynamic priority of the donor,
      raised by one and with the longest slice for the main thread of a launching application. */
  lemma BinderHandsOn(from: Task, to: Task, launch: bool, received: bool)
    requires Ok(from) && Ok(to) && StateOf(from).Real? && StateOf(to).NoTag? && !to.target
    requires |from.chain| < 3 && from.chain == Repeat(Binder, |from.chain|)
    ensures var r := BinderSet(from, to, launch, received);
            && Slice(r.tags) == (if launch then 0x700 else Slice(from.tags))
            && Dprio(r.tags) == (if launch && Dprio(from.tags) == 3 then 4 else Dprio(from.tags))
            && !HasFlag(r.tags, FLAG_ABINDER)
  {
    hide Ok, ShareState, SharedBy, StateOf, Slice, Dprio, Prio, HasFlag, BinderTags, IncTags, ClearFlag, Repeat,
        SetShare;
    BinderReach(from);
    FairByState(to);
    var tags := BinderTags(from.tags, launch);
    BinderTagsAre(from.tags, launch);
    var share := if ShareState(from.tags) == 0 then NO_SHARE else from.share;
    HandedTags(tags, share, Binder);
    DprioOfPrio(tags, IncTags(ClearFlag(tags, FLAG_ONESHOT), share, Binder));
    SetShareTags(to, Binder, share, tags, from.chain);
  }

  lemma SetShareTags(to: Task, k: Kind, share: Share, tags: Tags, chain: seq<Kind>)
    requires !to.target && (to.fair || to.rt)
    ensures SetShare(to, k, share, tags, chain).tags == IncTags(ClearFlag(tags, FLAG_ONESHOT), share, k)
  {
    hide IncTags, ClearFlag;
  }

  /** A call of a UX task treats an untagged real-time receiver like a fair one; receivers of other classes
      take nothing. */
  lemma BinderReachesRealTime(from: Task, to: Task, launch: bool, received: bool)
    requires StateOf(from).Real? && !to.fair && !TagsOk(to.tags)
    ensures BinderSet(from, to, launch, received) ==
              if to.rt then BinderSet(from, to.(fair := true), launch, received).(fair := false) else to
  {
    hide TagsOk, StateOf, BinderFromUx, BinderHold, SetShare;
    RealExactly(to);
    RealExactly(to.(fair := true));
    assert BinderSet(from, to, launch, received) == BinderFromUx(from, to, launch);
    assert BinderSet(from, to.(fair := true), launch, received) == BinderFromUx(from, to.(fair := true), launch);
    hide BinderSet;
    FromUxAsFair(from, to, launch);
  }

  lemma FromUxAsFair(from: Task, to: Task, launch: bool)
    requires !to.fair
    ensures BinderFromUx(from, to, launch) ==
              if to.rt then BinderFromUx(from, to.(fair := true), launch).(fair := false) else to
  {
    hide ShareState, SharedBy, BinderTags, SetShare, BinderFromUx, Gives;
    FromUxIs(from, to, launch);
    FromUxIs(from, to.(fair := true), launch);
    SetShareAsFair(to, Binder, NO_SHARE, BinderTags(from.tags, launch), from.chain);
    SetShareAsFair(to, Binder, from.share, BinderTags(from.tags, launch), from.chain);
  }

  /** Whether a UX task has anything to hand on by a call. */
  predicate Gives(from: Task) {
    ShareState(from.tags) == 0 || (SharedBy(from.tags, Binder) && from.share.binder < 3)
  }

  lemma FromUxIs(from: Task, to: Task, launch: bool)
    ensures BinderFromUx(from, to, launch) ==
              if !Gives(from) then to
              else SetShare(to, Binder, if ShareState(from.tags) == 0 then NO_SHARE else from.share,
                            BinderTags(from.tags, launch), from.chain)
  {
    hide BinderTags, SetShare;
  }

  lemma SetShareAsFair(to: Task, k: Kind, share: Share, tags: Tags, chain: seq<Kind>)
    requires !to.fair
    ensures SetShare(to, k, share, tags, chain) ==
              if to.rt then SetShare(to.(fair := true), k, share, tags, chain).(fair := false) else to
  {
    hide IncTags, IncShare, ClearFlag;
  }

  lemma FairByState(t: Task)
    requires StateOf(t).NoTag?
    ensures t.fair
  {
  }

  lemma LockSlices(handoff: bool)
    ensures LockSlice(handoff) & 0xF00 == LockSlice(handoff) == if handoff then 0x100 else 0x200
  {
  }

  /** A boost passed on by a lock keeps the priority of the waiter and runs on the slice of the lock, the
      shortest if the lock is handed off. */
  lemma LockHandsOn(from: Task, to: Task, k: Kind, handoff: bool)
    requires Ok(from) && Ok(to) && StateOf(from).Real? && StateOf(to).NoTag? && !to.target && (k.Mutex? || k.RwSem?)
    requires ShareState(from.tags) == 0 || SharedBy(from.tags, Binder) ||
             (SharedBy(from.tags, k) && Count(from.share, k) == 1)
    ensures var r := LockSet(from, to, k, LockSlice(handoff));
            Slice(r.tags) == (if handoff then 0x100 else 0x200) && Prio(r.tags) == Prio(from.tags)
  {
    LockSlices(handoff);
    var slice := LockSlice(handoff);
    FairByState(to);
    LockReach(from, k);
    hide Ok, ShareState, SharedBy, StateOf, Slice, Prio, IncTags, ClearFlag, ChangeSlice, IgnoreShare, HasFlag;
    NewSlice(from.tags, slice);
    NewSlice(IgnoreShare(from.tags), slice);
    SliceIsLocal(from.tags, slice);
    SliceIsLocal(IgnoreShare(from.tags), slice);
    ShareIgnored(from.tags);
    HandedTags(ChangeSlice(from.tags, slice), NO_SHARE, k);
    HandedTags(ChangeSlice(from.tags, slice), from.share, k);
    HandedTags(ChangeSlice(IgnoreShare(from.tags), slice), NO_SHARE, k);
  }

  /** What a receiver of a first boost with standard tags looks like: static priority 0x20 and `dprio`,
      the given slice, one hop, held once. */
  predicate Standard(r: Task, k: Kind, dprio: Tags, slice: Tags) {
    && Prio(r.tags) == 0x20 | dprio && Slice(r.tags) == slice && SharedBy(r.tags, k)
    && r.chain == [k] && r.share == Alone(k, 1, 1)
  }

  lemma StandardGiven(to: Task, k: Kind, tags: Tags, dprio: Tags, slice: Tags)
    requires !to.target && (to.fair || to.rt) && ShareState(tags) == 0
    requires Prio(tags) == 0x20 | dprio && Slice(tags) == slice
    ensures Standard(SetShare(to, k, NO_SHARE, tags, []), k, dprio, slice)
  {
    hide ShareState, Prio, Slice, IncTags, ClearFlag, SharedBy;
    HandedTags(tags, NO_SHARE, k);
    IncTagsShares(k, NO_SHARE, tags);
  }

  lemma StandardTags(slice: Tags)
    ensures var a := ClearFlag(RT_TAGS, FLAG_ABINDER);
            && RT_TAGS == 0x523 && a == 0x523 && ShareState(a) == 0 && Prio(a) == 0x20 | 3 && Slice(a) == 0x500
            && ShareState(ChangeSlice(RT_TAGS, slice)) == 0 && Prio(ChangeSlice(RT_TAGS, slice)) == 0x20 | 3
            && Slice(ChangeSlice(RT_TAGS, slice)) == slice & 0xF00
  {
  }

  lemma FutexTags()
    ensures var a := ChangeSlice(RaiseDprio(InitDprio(TAGS_FUTEX)), SLICE3);
            ShareState(a) == 0 && Prio(a) == 0x20 | 4 && Slice(a) == 0x300
  {
  }

  /** A real-time donor without tags of its own: a call gives standard tags to an untagged receiver, and
      one that is sent to a boosted UX task holds that binder boost longer; nobody else is changed. */
  lemma BinderFromRealTime(from: Task, to: Task, launch: bool, received: bool)
    requires !StateOf(from).Real?
    ensures var r := BinderSet(from, to, launch, received);
            if from.rt && StateOf(to).Real? && !received then r == UpdateHold(to, Binder)
            else if from.rt && StateOf(to).NoTag? && !to.target then Standard(r, Binder, 3, 0x500)
            else r == to
  {
    StandardTags(0);
    if StateOf(to).NoTag? {
      FairByState(to);
    }
    if from.rt && StateOf(to).NoTag? && !to.target {
      StandardGiven(to, Binder, 0x523, 3, 0x500);
    }
    hide StateOf, ShareState, Standard, ClearFlag, HasFlag, Prio, Slice, SharedBy, IncTags;
  }

  /** A UX donor: a receiver that is a UX task is held longer by a call sent to it, and one that is
      neither untagged nor out of the fair class without tags is left alone. */
  lemma BinderToTagged(from: Task, to: Task, launch: bool, received: bool)
    requires StateOf(from).Real? && !StateOf(to).NoTag? && !(StateOf(to).NotFair? && !TagsOk(to.tags))
    ensures BinderSet(from, to, launch, received) ==
              if StateOf(to).Real? && !received then UpdateHold(to, Binder) else to
  {
    hide StateOf, TagsOk, BinderFromUx;
  }

  /** A lock boosts untagged holders only; of the waiters without UX tags only the display targets hand
      anything on, and that is standard tags on the slice of the lock. */
  lemma LockFromRealTime(from: Task, to: Task, k: Kind, handoff: bool)
    requires !StateOf(from).Real? || !StateOf(to).NoTag?
    ensures var r := LockSet(from, to, k, LockSlice(handoff));
            if from.rt && from.target && StateOf(to).NoTag? && !to.target
            then Standard(r, k, 3, if handoff then 0x100 else 0x200)
            else r == to
  {
    LockSlices(handoff);
    var slice := LockSlice(handoff);
    StandardTags(slice);
    if StateOf(to).NoTag? {
      FairByState(to);
      if !to.target {
        StandardGiven(to, k, ChangeSlice(RT_TAGS, slice), 3, slice & 0xF00);
      }
    }
    hide StateOf, ShareState, Standard, ChangeSlice, Prio, Slice, SharedBy, IncTags, ClearFlag;
  }

  /** The owner of a contended futex: a UX task holds its futex boost longer, an untagged or real-time
      one gets the standard tags raised by one on the slice of futexes. */
  lemma FutexComputes(t: Task)
    ensures var r := FutexSet(t);
            if StateOf(t).Real? then r == UpdateHold(t, Futex)
            else if (StateOf(t).NoTag? || (StateOf(t).NotFair? && t.rt)) && !t.target then Standard(r, Futex, 4, 0x300)
            else r == t
  {
    FutexTags();
    RealExactly(t);
    if (StateOf(t).NoTag? || (StateOf(t).NotFair? && t.rt)) && !t.target {
      StandardGiven(t, Futex, ChangeSlice(RaiseDprio(InitDprio(TAGS_FUTEX)), SLICE3), 4, 0x300);
    }
    hide StateOf, ShareState, Standard, ChangeSlice, RaiseDprio, InitDprio, Prio, Slice, SharedBy, IncTags, ClearFlag;
  }

  // ---------------------------------------------------------------- tagged records are initialised

  /** A record with tags has been initialised, so what is parked behind them counts. */
  predicate Initialised(t: Task) {
    t.tags != 0 ==> t.init
  }

  lemma SharedIsTagged(t: Task, k: Kind)
    requires SharedBy(t.tags, k)
    ensures t.tags != 0
  {
    ShareBitInField(k);
    hide ShareBit;
  }

  lemma PrioIsTagged(t: Task)
    requires Prio(t.tags) != 0
    ensures t.tags != 0
  {
  }

  lemma HoldKeepsInit(t: Task, k: Kind)
    requires Initialised(t)
    ensures Initialised(UpdateHold(t, k))
  {
    if SharedBy(t.tags, k) {
      SharedIsTagged(t, k);
    }
    hide SharedBy, StateOf, HasFlag, ClearFlag;
  }

  lemma SetKeepsInit(to: Task, k: Kind, share: Share, tags: Tags, chain: seq<Kind>)
    requires Initialised(to)
    ensures Initialised(SetShare(to, k, share, tags, chain))
  {
    hide IncTags, ClearFlag;
  }

  lemma BinderKeepsInit(from: Task, to: Task, launch: bool, received: bool)
    requires Initialised(to)
    ensures Initialised(BinderSet(from, to, launch, received))
  {
    hide Initialised, UpdateHold, SetShare, StateOf, SharedBy, ShareState, TagsOk, BinderTags, HasFlag, ClearFlag;
    HoldKeepsInit(to, Binder);
    SetKeepsInit(to, Binder, NO_SHARE, BinderTags(from.tags, launch), from.chain);
    SetKeepsInit(to, Binder, from.share, BinderTags(from.tags, launch), from.chain);
    SetKeepsInit(to, Binder, NO_SHARE, RT_TAGS, []);
    SetKeepsInit(to, Binder, NO_SHARE, ClearFlag(RT_TAGS, FLAG_ABINDER), []);
  }

  lemma LockKeepsInit(from: Task, to: Task, k: Kind, slice: Tags)
    requires Initialised(to)
    ensures Initialised(LockSet(from, to, k, slice))
  {
    hide Initialised, SetShare, StateOf, SharedBy, ShareState, ChangeSlice, IgnoreShare;
    SetKeepsInit(to, k, NO_SHARE, ChangeSlice(from.tags, slice), from.chain);
    SetKeepsInit(to, k, from.share, ChangeSlice(from.tags, slice), from.chain);
    SetKeepsInit(to, k, NO_SHARE, ChangeSlice(IgnoreShare(from.tags), slice), from.chain);
    SetKeepsInit(to, k, NO_SHARE, ChangeSlice(RT_TAGS, slice), []);
  }

  lemma UnsetKeepsInit(t: Task, k: Kind)
    requires Initialised(t)
    ensures Initialised(UnsetShare(t, k))
  {
    hide UnsetShare;
    UnsetInit(t, k);
  }

  lemma UnsetInit(t: Task, k: Kind)
    ensures !t.init ==> UnsetShare(t, k) == t
    ensures t.init ==> UnsetShare(t, k).init || UnsetShare(t, k).tags == 0
  {
    hide SharedBy, DecTags, DecShare, HasFlag, Ended;
    if t.init {
      EndedInit(t, k);
    }
  }

  lemma EndedInit(t: Task, k: Kind)
    requires t.init
    ensures Ended(t, k).init || Ended(t, k).tags == 0
  {
    hide Ended, SetFlag;
    EndedIs(t, k);
  }

  lemma RequestKeepsInit(t: Task, req: Tags)
    requires Initialised(t)
    ensures Initialised(SetTags(t, req))
  {
    hide Initialised, UpdateHold, SetShare, StateOf, SharedBy, ChangeSlice, RaiseDprio, InitDprio, UnsetShare,
        FutexType, Prio, OwnTags;
    HoldKeepsInit(t, Futex);
    SetKeepsInit(t, Futex, NO_SHARE, ChangeSlice(RaiseDprio(InitDprio(TAGS_FUTEX)), SLICE3), []);
    UnsetKeepsInit(t, Futex);
    OwnKeepsInit(t, Requested(req));
  }

  lemma OwnKeepsInit(t: Task, req: Tags)
    requires Initialised(t)
    ensures Initialised(OwnTags(t, req))
  {
    hide UpdatePending, Dprio, InitDprio, Install, Initialised;
    var p := UpdatePending(t, req);
    InstalledIsInit(t, p.tags, p.pending);
    InstalledIsInit(t, InitDprio(p.tags), p.pending);
    ParkingKeepsInit(t, p.pending);
  }

  lemma InstalledIsInit(t: Task, tags: Tags, pending: Tags)
    ensures Initialised(Install(t, tags, pending))
  {
    hide TagsOk, HasFlag;
  }

  lemma ParkingKeepsInit(t: Task, pending: Tags)
    ensures Initialised(t.(pending := pending)) <==> Initialised(t)
  {
  }

  lemma AdjustKeepsInit(t: Task, shift: Shift, pickCores: bool, cores: Tags)
    requires Initialised(t)
    ensures Initialised(AdjustPrio(t, shift, pickCores, cores))
  {
    if Prio(t.tags) != 0 {
      PrioIsTagged(t);
    }
    hide Prio, TagsOk, Shifted, PickCores;
  }

  lemma StepKeepsInit(s: seq<Task>, e: Event)
    requires Legal(s, e) && forall i :: 0 <= i < |s| ==> Initialised(s[i])
    ensures forall i :: 0 <= i < |s| ==> Initialised(Step(s, e)[i])
  {
    hide BinderSet, LockSet, UnsetShare, SetTags, AdjustPrio, ShareState;
    match e
    case BinderCall(from, to, launch, received) => BinderKeepsInit(s[from], s[to], launch, received);
    case MutexWait(from, to, handoff) => LockKeepsInit(s[from], s[to], Mutex, LockSlice(handoff));
    case RwSemWait(from, to, handoff) => LockKeepsInit(s[from], s[to], RwSem, LockSlice(handoff));
    case Unset(t, k) => UnsetKeepsInit(s[t], k);
    case Request(t, req) => RequestKeepsInit(s[t], req);
    case Adjust(t, shift, pickCores, cores) => AdjustKeepsInit(s[t], shift, pickCores, cores);
    case Off(t, sleep, outran) =>
    case Link(t) =>
    case Unlink(t) =>
    case Environment(t, _, _, _, _, _, _) =>
  }

  /** In every run from untagged tasks, tags are found on initialised records only. */
  lemma {:induction false} EveryTaggedIsInitialised(s: seq<Task>, events: seq<Event>)
    requires (forall i :: 0 <= i < |s| ==> Initialised(s[i])) && LegalRun(s, events)
    ensures forall i :: 0 <= i < |s| ==> Initialised(Run(s, events)[i])
    decreases |events|
  {
    if events != [] {
      StepKeepsInit(s, events[0]);
      EveryTaggedIsInitialised(Step(s, events[0]), events[1..]);
    }
  }
}
