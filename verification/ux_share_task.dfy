/** The task records behind inherited boosts, updated in place by the hooks. */
module UxShareTask {
  import opened UxTags
  import opened UxShare

  /** `inc_ux_share` on copies of the two words. */
  method IncUxShare(tags: Tags, data: Share, k: Kind) returns (newTags: Tags, newData: Share)
    ensures newTags == IncTags(tags, data, k) && newData == IncShare(data, k)
  {
    newTags, newData := tags, data;
    if Count(newData, k) == 0 {
      newTags := SetFlag(tags, ShareBit(k));
    }
    newData := WithCount(newData, k, (Count(newData, k) + 1) % 16);
    newData := newData.(hold := HOLD_INIT);
  }

  /** `dec_ux_share` on copies of the two words. */
  method DecUxShare(tags: Tags, data: Share, k: Kind) returns (newTags: Tags, newData: Share)
    ensures newTags == DecTags(tags, data, k) && newData == DecShare(data, k)
  {
    newTags, newData := tags, data;
    if newData.hold > 0 {
      newData := newData.(hold := newData.hold - 1);
    }
    if newData.hold == 0 {
      newData := WithCount(newData, k, 0);
      newTags := ClearFlag(tags, ShareBit(k));
    }
  }

  method WithoutOneshot(tags: Tags) returns (r: Tags)
    ensures r == ClearFlag(tags, FLAG_ONESHOT)
  {
    r := tags;
    if HasFlag(tags, FLAG_ONESHOT) {
      r := ClearFlag(tags, FLAG_ONESHOT);
    }
  }

  class TransTask {
    var uxTags: Tags
    var share: Share
    var uxPending: Tags
    var init: bool
    var linked: bool
    var fair: bool
    var rt: bool
    var exiting: bool
    var expired: bool
    var kworkerOff: bool
    var onRq: bool
    const target: bool
    ghost var chain: seq<Kind>

    constructor (fair: bool, rt: bool, target: bool)
      ensures Fresh(Value()) && Ok(Value()) && !init && !linked
    {
      uxTags, share, uxPending, init, linked := 0, NO_SHARE, 0, false, false;
      this.fair, this.rt, this.target := fair, rt, target;
      exiting, expired, kworkerOff, onRq := false, false, false, false;
      chain := [];
      new;
      FreshOk(Value());
    }

    ghost function Value(): Task
      reads this
    {
      Task(uxTags, share, uxPending, init, linked, fair, rt, exiting, expired, kworkerOff, onRq, target, chain)
    }

    function IsUxTask(): (s: UxState)
      reads this
      ensures s == StateOf(Value())
    {
      if !fair then NotFair
      else if !TagsOk(uxTags) then NoTag
      else if HasFlag(uxTags, FLAG_KWORKER) && kworkerOff then KworkerDisabled
      else if exiting then Exiting
      else if expired then Timeout
      else Real
    }

    /** `set_ux_share` with `inc_ux_share`. */
    method SetUxShare(k: Kind, share: Share, tags: Tags, ghost donated: seq<Kind>)
      modifies this
      ensures Value() == SetShare(old(Value()), k, share, tags, donated)
    {
      hide ClearFlag, IncTags, IncShare, Received;
      if target {
        return;
      }
      var shareTags := WithoutOneshot(tags);
      if !(fair || rt) {
        return;
      }
      var newTags, newData := IncUxShare(shareTags, share, k);
      Receive(newTags, newData, donated + [k]);
    }

    method Receive(tags: Tags, data: Share, ghost hops: seq<Kind>)
      modifies this
      ensures Value() == Received(old(Value()), tags, data, hops)
    {
      if !init {
        uxPending, init := 0, true;
      }
      uxTags, share, chain := tags, data, hops;
      if onRq {
        linked := true;
      }
    }

    method ClearBoost()
      modifies this
      ensures Value() == Cleared(old(Value()))
    {
      uxTags, share, init := 0, NO_SHARE, false;
      chain := [];
    }

    /** `unset_ux_share` with `dec_ux_share`. */
    method UnsetUxShare(k: Kind)
      modifies this
      ensures Value() == UnsetShare(old(Value()), k)
    {
      hide SharedBy, DecTags, DecShare, Ended, HasFlag;
      if !init || HasFlag(uxTags, FLAG_ONESHOT) {
        return;
      }
      if uxTags == 0 && share == NO_SHARE {
        return;
      }
      var tags, data := DecUxShare(uxTags, share, k);
      if SharedBy(tags, k) {
        uxTags, share := tags, data;
        return;
      }
      EndBoost(k);
    }

    method EndBoost(k: Kind)
      modifies this
      ensures Value() == Ended(old(Value()), k)
    {
      hide SetFlag;
      if linked {
        if k.Binder? {
          uxTags := SetFlag(uxTags, FLAG_ONESHOT);
          return;
        }
        linked := false;
      }
      ClearBoost();
    }

    /** `update_ux_share_hold` with `inc_ux_share_hold`. */
    method UpdateUxShareHold(k: Kind)
      modifies this
      ensures Value() == UpdateHold(old(Value()), k)
    {
      hide SharedBy, StateOf, ClearFlag, HasFlag;
      if !SharedBy(uxTags, k) {
        return;
      }
      if !IsUxTask().Real? {
        return;
      }
      if HasFlag(uxTags, FLAG_ONESHOT) {
        uxTags := ClearFlag(uxTags, FLAG_ONESHOT);
      }
      if (k.Binder? || k.Futex?) && share.hold <= HOLD_LIMIT {
        share := share.(hold := (share.hold + 1) % 16);
      }
    }

    /** `dequeue_ux_task`. */
    method DequeueUxTask(sleep: bool, outran: bool)
      modifies this
      ensures Value() == Dequeue(old(Value()), sleep, outran)
    {
      hide ShareState, HasFlag;
      if linked {
        linked := false;
        if ShareState(uxTags) != 0 {
          var oneshot := HasFlag(uxTags, FLAG_ONESHOT);
          if (oneshot && sleep) || outran {
            ClearBoost();
          }
        }
      }
    }
  }

  method TagsForCall(from: Tags, launch: bool) returns (tags: Tags)
    ensures tags == BinderTags(from, launch)
  {
    tags := from;
    if launch {
      tags := ChangeSlice(tags, SLICE7);
      if Dprio(tags) == 3 {
        tags := RaiseDprio(tags);
      }
    }
    if HasFlag(tags, FLAG_ABINDER) {
      tags := ClearFlag(tags, FLAG_ABINDER);
    }
  }

  /** `binder_set_ux_share` with a donor task. */
  method BinderSetUxShare(to: TransTask, from: TransTask, launch: bool, received: bool)
    modifies to
    ensures to.Value() == BinderSet(old(from.Value()), old(to.Value()), launch, received)
  {
    hide StateOf, SharedBy, ShareState, TagsOk, SetShare, UpdateHold, BinderTags, HasFlag, ClearFlag;
    var state := to.IsUxTask();
    if from.IsUxTask().Real? {
      if state.Real? {
        if received {
          return;
        }
        if SharedBy(to.uxTags, Binder) {
          to.UpdateUxShareHold(Binder);
        }
        return;
      }
      if state.NotFair? && TagsOk(to.uxTags) {
        return;
      }
      if state.NoTag? || state.NotFair? {
        var tags, data := from.uxTags, NO_SHARE;
        if ShareState(tags) != 0 {
          if !SharedBy(tags, Binder) {
            return;
          }
          data := from.share;
          if data.binder >= 3 {
            return;
          }
        }
        tags := TagsForCall(tags, launch);
        to.SetUxShare(Binder, data, tags, from.chain);
      }
      return;
    }
    if from.rt {
      if state.Real? {
        if received {
          return;
        }
        if SharedBy(to.uxTags, Binder) {
          to.UpdateUxShareHold(Binder);
        }
        return;
      }
      if state.NoTag? {
        var tags := RT_TAGS;
        if HasFlag(tags, FLAG_ABINDER) {
          tags := ClearFlag(tags, FLAG_ABINDER);
        }
        to.SetUxShare(Binder, NO_SHARE, tags, []);
      }
    }
  }

  /** `mutex_set_ux_share` (`k` is `Mutex`) and `rwsem_set_ux_share` (`k` is `RwSem`). */
  method LockSetUxShare(to: TransTask, from: TransTask, k: Kind, handoff: bool)
    requires k.Mutex? || k.RwSem?
    modifies to
    ensures to.Value() == LockSet(old(from.Value()), old(to.Value()), k, LockSlice(handoff))
  {
    hide StateOf, SharedBy, ShareState, TagsOk, SetShare, ChangeSlice, IgnoreShare;
    var slice := if handoff then SLICE1 else SLICE2;
    var state := to.IsUxTask();
    if from.IsUxTask().Real? && !state.Real? {
      if state.NoTag? {
        var tags, data := from.uxTags, NO_SHARE;
        if ShareState(tags) != 0 {
          if SharedBy(tags, k) {
            data := from.share;
            if Count(data, k) >= 2 {
              return;
            }
          } else if SharedBy(tags, Binder) {
            tags := IgnoreShare(tags);
          } else {
            return;
          }
        }
        tags := ChangeSlice(tags, slice);
        to.SetUxShare(k, data, tags, from.chain);
      }
      return;
    }
    if from.rt && !state.Real? {
      if state.NoTag? {
        if !from.target {
          return;
        }
        to.SetUxShare(k, NO_SHARE, ChangeSlice(RT_TAGS, slice), []);
      }
    }
  }

  /** `binder_unset_ux_share`, `mutex_unset_ux_share`, `rwsem_unset_ux_share`, `futex_unset_ux_share`. */
  method UnsetOne(t: TransTask, k: Kind)
    modifies t
    ensures t.Value() == if Count(old(t.share), k) == 0 then old(t.Value()) else UnsetShare(old(t.Value()), k)
  {
    if Count(t.share, k) == 0 {
      return;
    }
    t.UnsetUxShare(k);
  }
}
