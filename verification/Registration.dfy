/** src/EPollPoller.cpp as a function on values: three copies of one fact must agree, namely what each
    channel believes (events_, index_), the poller's fd table (channels_) and the kernel's interest
    set.  `C` is the identity of a channel. */
module Registration {
  import opened Kernel

  datatype Index = New | Added | Deleted

  datatype Chan = Chan(fd: int, events: Mask, index: Index)

  datatype Interest<C> = Interest(mask: Mask, ptr: C)

  datatype CtlOp = Add | Mod | Del

  datatype CtlError = AlreadyExists(op: CtlOp, fd: int) | NoEntry(op: CtlOp, fd: int)

  /** `errors` lists the epoll_ctl calls the kernel refused. */
  datatype Registry<C> = Registry(
    chans: map<C, Chan>,
    channels: map<int, C>,
    kernel: map<int, Interest<C>>,
    errors: seq<CtlError>)

  /** epoll_ctl(2) as called by EPollPoller::update for channel `c`. */
  function EpollCtl<C>(r: Registry<C>, op: CtlOp, c: C): Registry<C>
    requires c in r.chans
  {
    var ch := r.chans[c];
    var interest := Interest(ch.events, c);
    match op
    case Add =>
      if ch.fd in r.kernel then r.(errors := r.errors + [AlreadyExists(Add, ch.fd)])
      else r.(kernel := r.kernel[ch.fd := interest])
    case Mod =>
      if ch.fd in r.kernel then r.(kernel := r.kernel[ch.fd := interest])
      else r.(errors := r.errors + [NoEntry(Mod, ch.fd)])
    case Del =>
      if ch.fd in r.kernel then r.(kernel := r.kernel - {ch.fd})
      else r.(errors := r.errors + [NoEntry(Del, ch.fd)])
  }

  function SetIndex<C>(r: Registry<C>, c: C, index: Index): Registry<C>
    requires c in r.chans
  {
    r.(chans := r.chans[c := r.chans[c].(index := index)])
  }

  function UpdateChannel<C>(r: Registry<C>, c: C): Registry<C>
    requires c in r.chans
  {
    var ch := r.chans[c];
    match ch.index
    case New =>
      EpollCtl(SetIndex(r.(channels := r.channels[ch.fd := c]), c, Added), Add, c)
    case Deleted =>
      EpollCtl(SetIndex(r, c, Added), Add, c)
    case Added =>
      if ch.events == NONE_EVENT then SetIndex(EpollCtl(r, Del, c), c, Deleted)
      else EpollCtl(r, Mod, c)
  }

  function RemoveChannel<C>(r: Registry<C>, c: C): Registry<C>
    requires c in r.chans
  {
    var ch := r.chans[c];
    var r1 := r.(channels := r.channels - {ch.fd});
    var r2 := if ch.index == Added then EpollCtl(r1, Del, c) else r1;
    SetIndex(r2, c, New)
  }

  /** What every interest mutator of Channel does: change the mask, then update the poller. */
  function SetEvents<C>(r: Registry<C>, c: C, events: Mask): Registry<C>
    requires c in r.chans
  {
    UpdateChannel(r.(chans := r.chans[c := r.chans[c].(events := events)]), c)
  }

  /** Bring the tables in line with the channel's mask, if it changed. */
  function Follow<C>(r: Registry<C>, c: C, events: Mask): Registry<C>
    requires c in r.chans
  {
    if r.chans[c].events == events then r else SetEvents(r, c, events)
  }

  /** A channel that exists but is not registered yet. */
  function Introduce<C>(r: Registry<C>, c: C, fd: int): Registry<C> {
    r.(chans := r.chans[c := Chan(fd, NONE_EVENT, New)])
  }

  ghost predicate ChanAgrees<C>(r: Registry<C>, c: C)
    requires c in r.chans
  {
    var ch := r.chans[c];
    && (ch.index != New <==> ch.fd in r.channels && r.channels[ch.fd] == c)
    && (ch.index == Added <==> ch.fd in r.kernel && r.kernel[ch.fd].ptr == c)
    && (ch.index == Added ==> r.kernel[ch.fd].mask == ch.events)
  }

  /** The three copies agree and no epoll_ctl call was ever refused. */
  ghost predicate Agreement<C>(r: Registry<C>) {
    && (forall c :: c in r.chans ==> ChanAgrees(r, c))
    && (forall fd :: fd in r.channels ==> r.channels[fd] in r.chans && r.chans[r.channels[fd]].fd == fd)
    && (forall fd :: fd in r.kernel ==> fd in r.channels && r.channels[fd] == r.kernel[fd].ptr)
    && r.errors == []
  }

  /** The fd of a channel that is not registered is not taken by another channel. */
  predicate FdFree<C>(r: Registry<C>, c: C)
    requires c in r.chans
  {
    r.chans[c].index == New ==> r.chans[c].fd !in r.channels
  }

  /** epoll_ctl refuses exactly an ADD of a descriptor that is in the set, with EEXIST, and a MOD or DEL of
      one that is not, with ENOENT; a refusal is recorded and changes nothing else. */
  lemma RefusedExactly<C>(r: Registry<C>, op: CtlOp, c: C)
    requires c in r.chans
    ensures var r', fd := EpollCtl(r, op, c), r.chans[c].fd;
            && (r'.errors != r.errors <==> (op == Add <==> fd in r.kernel))
            && (r'.errors != r.errors ==>
                 r' == r.(errors := r.errors + [if op == Add then AlreadyExists(Add, fd) else NoEntry(op, fd)]))
            && (r'.errors == r.errors ==>
                 && (fd in r'.kernel <==> op != Del) && r'.kernel - {fd} == r.kernel - {fd}
                 && (op != Del ==> r'.kernel[fd] == Interest(r.chans[c].events, c))
                 && r'.chans == r.chans && r'.channels == r.channels)
  {
    assert |EpollCtl(r, op, c).errors| == |r.errors| + if op == Add <==> r.chans[c].fd in r.kernel then 1 else 0;
  }

  /** What goes wrong when a descriptor is taken: registering over a live entry is refused with EEXIST. */
  lemma TakenFdIsRefused<C>(r: Registry<C>, c: C, events: Mask)
    requires Agreement(r) && c in r.chans && !FdFree(r, c)
    ensures var fd := r.chans[c].fd;
            SetEvents(r, c, events).errors == if fd in r.kernel then [AlreadyExists(Add, fd)] else []
  {
  }

  /** A mask change keeps the copies in agreement, with no refused epoll_ctl, exactly when the fd of a
      channel registering for the first time is free. */
  lemma SetEventsAgrees<C>(r: Registry<C>, c: C, events: Mask)
    requires Agreement(r) && c in r.chans
    ensures Agreement(SetEvents(r, c, events)) <==> FdFree(r, c)
  {
    var r' := SetEvents(r, c, events);
    var ch := r.chans[c];
    assert ChanAgrees(r, c);
    if FdFree(r, c) {
      forall d | d in r'.chans ensures ChanAgrees(r', d) {
        assert d in r.chans && ChanAgrees(r, d);
        if d != c && ch.index == New {
          assert d in r.chans && r.chans[d].index != New ==> r.chans[d].fd in r.channels;
        }
      }
    } else {
      var d := r.channels[ch.fd];
      assert d in r.chans && ChanAgrees(r, d) && d != c;
      assert d in r'.chans && !ChanAgrees(r', d);
    }
  }

  /** Removing a channel erases its own table entry and no other exactly when its fd is free or its own. */
  lemma RemoveChannelAgrees<C>(r: Registry<C>, c: C)
    requires Agreement(r) && c in r.chans
    ensures Agreement(RemoveChannel(r, c)) <==> FdFree(r, c)
    ensures FdFree(r, c) ==> forall fd :: fd in r.channels && r.channels[fd] != c ==>
      fd in RemoveChannel(r, c).channels && RemoveChannel(r, c).channels[fd] == r.channels[fd]
  {
    var r' := RemoveChannel(r, c);
    var ch := r.chans[c];
    assert ChanAgrees(r, c);
    if FdFree(r, c) {
      forall d | d in r'.chans ensures ChanAgrees(r', d) {
        assert d in r.chans && ChanAgrees(r, d);
      }
    } else {
      var d := r.channels[ch.fd];
      assert d in r.chans && ChanAgrees(r, d) && d != c;
      assert d in r'.chans && !ChanAgrees(r', d);
    }
  }

  /** Creating a channel touches no copy, so agreement is kept whatever its fd is. */
  lemma IntroduceAgrees<C>(r: Registry<C>, c: C, fd: int)
    requires Agreement(r) && c !in r.chans
    ensures Agreement(Introduce(r, c, fd))
  {
    var r' := Introduce(r, c, fd);
    assert fd in r.channels ==> r.channels[fd] in r.chans;
    forall d | d in r'.chans ensures ChanAgrees(r', d) {
      assert d in r.chans ==> ChanAgrees(r, d);
      assert fd in r.kernel ==> fd in r.channels;
    }
  }

  /** Neither operation touches another channel. */
  lemma OtherChansStay<C>(r: Registry<C>, c: C, events: Mask)
    requires c in r.chans
    ensures var ch := r.chans[c];
            var index := if ch.index == Added && events == NONE_EVENT then Deleted else Added;
            SetEvents(r, c, events).chans == r.chans[c := Chan(ch.fd, events, index)]
    ensures RemoveChannel(r, c).chans == r.chans[c := r.chans[c].(index := New)]
  {
  }

  /** An empty mask does not mean "not in the kernel set": after a mask change a channel is in the kernel
      set unless it was there before and asks for nothing now.  In particular emptying the mask twice
      in a row puts the channel back. */
  lemma RegisteredAfterSetEvents<C>(r: Registry<C>, c: C, events: Mask)
    requires Agreement(r) && c in r.chans && FdFree(r, c)
    ensures var ch := r.chans[c];
            (ch.fd in SetEvents(r, c, events).kernel <==> events != NONE_EVENT || ch.index != Added)
    ensures r.chans[c].index == Added ==>
      r.chans[c].fd in SetEvents(SetEvents(r, c, NONE_EVENT), c, NONE_EVENT).kernel
  {
    assert ChanAgrees(r, c);
  }

  /** From `r` to `r'` only channel `c` changed, and agreement, if it held with c's fd free, still does. */
  ghost predicate KeepsAgreement<C>(r: Registry<C>, r': Registry<C>, c: C)
    requires c in r.chans
  {
    && c in r'.chans && r'.chans[c].fd == r.chans[c].fd
    && r'.chans - {c} == r.chans - {c}
    && (Agreement(r) && FdFree(r, c) ==> Agreement(r') && FdFree(r', c))
  }

  /** Mask changes keep agreement, one after the other. */
  lemma MaskChangeKeeps<C>(r: Registry<C>, c: C, events: Mask)
    requires c in r.chans
    ensures KeepsAgreement(r, SetEvents(r, c, events), c)
    ensures KeepsAgreement(r, Follow(r, c, events), c)
  {
    OtherChansStay(r, c, events);
    if Agreement(r) && FdFree(r, c) {
      SetEventsAgrees(r, c, events);
    }
  }

  /** What a wait may report: kernel entries, each at most once, with flags that were asked for or that
      are always reported. */
  ghost predicate Reports<C>(r: Registry<C>, events: seq<(Mask, C)>) {
    && (forall i :: 0 <= i < |events| ==> Reported(r, events[i].0, events[i].1))
    && (forall i, j :: 0 <= i < j < |events| ==> events[i].1 != events[j].1)
  }

  ghost predicate Reported<C>(r: Registry<C>, revents: Mask, c: C) {
    && c in r.chans
    && r.chans[c].fd in r.kernel
    && r.kernel[r.chans[c].fd].ptr == c
    && revents <= r.kernel[r.chans[c].fd].mask + {Err, Hup}
  }
}
