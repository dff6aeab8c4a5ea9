/** include/Channel.h, src/Channel.cpp and src/EPollPoller.cpp in their own form: objects that update
    their fields, each method proved against the function of the same name on values. */
module Pollers {
  import opened Kernel
  import opened Registration

  class Channel {
    const poller: EPollPoller
    const fd: int
    var events: Mask
    var revents: Mask
    var index: Index
    var tie: object?         // tie_, a weak pointer
    var tied: bool

    constructor (poller: EPollPoller, fd: int)
      ensures this.poller == poller && this.fd == fd
      ensures events == NONE_EVENT && revents == {} && index == New && tie == null && !tied
    {
      this.poller := poller;
      this.fd := fd;
      events, revents, index := NONE_EVENT, {}, New;
      tie, tied := null, false;
    }

    predicate IsNoneEvent()
      reads this
    {
      events == NONE_EVENT
    }

    predicate IsWriting()
      reads this
      ensures IsWriting() <==> Out in events
    {
      assert Out in events ==> Out in events * WRITE_EVENT;
      events * WRITE_EVENT != {}
    }

    predicate IsReading()
      reads this
      ensures IsReading() <==> In in events || Pri in events
    {
      assert In in events ==> In in events * READ_EVENT;
      assert Pri in events ==> Pri in events * READ_EVENT;
      events * READ_EVENT != {}
    }

    method Tie(obj: object)
      modifies this`tie, this`tied
      ensures tie == obj && tied
    {
      tie := obj;
      tied := true;
    }

    /** Whether the handlers run: not for a tied channel whose owner is gone.  `alive` is the set of objects
        some shared pointer holds. */
    predicate Guards(alive: set<object>)
      reads this
    {
      tied ==> tie != null && tie in alive
    }

    method EnableReading()
      requires this in poller.known && poller.Valid()
      modifies this`events, this`index, poller
      ensures poller.Valid() && poller.known == old(poller.known)
      ensures poller.table == SetEvents(old(poller.table), this, events)
      ensures events == old(events) + READ_EVENT
    {
      events := events + READ_EVENT;
      Update();
    }

    method DisableReading()
      requires this in poller.known && poller.Valid()
      modifies this`events, this`index, poller
      ensures poller.Valid() && poller.known == old(poller.known)
      ensures poller.table == SetEvents(old(poller.table), this, events)
      ensures events == old(events) - READ_EVENT
    {
      events := events - READ_EVENT;
      Update();
    }

    method EnableWriting()
      requires this in poller.known && poller.Valid()
      modifies this`events, this`index, poller
      ensures poller.Valid() && poller.known == old(poller.known)
      ensures poller.table == SetEvents(old(poller.table), this, events)
      ensures events == old(events) + WRITE_EVENT
    {
      events := events + WRITE_EVENT;
      Update();
    }

    method DisableWriting()
      requires this in poller.known && poller.Valid()
      modifies this`events, this`index, poller
      ensures poller.Valid() && poller.known == old(poller.known)
      ensures poller.table == SetEvents(old(poller.table), this, events)
      ensures events == old(events) - WRITE_EVENT
    {
      events := events - WRITE_EVENT;
      Update();
    }

    method DisableAll()
      requires this in poller.known && poller.Valid()
      modifies this`events, this`index, poller
      ensures poller.Valid() && poller.known == old(poller.known)
      ensures poller.table == SetEvents(old(poller.table), this, events)
      ensures events == NONE_EVENT
    {
      events := NONE_EVENT;
      Update();
    }

    /** Called with the mask already changed. */
    method Update()
      requires this in poller.known && poller.ValidExcept(this)
      modifies this`index, poller
      ensures poller.Valid() && poller.known == old(poller.known)
      ensures poller.table == SetEvents(old(poller.table), this, events)
    {
      poller.UpdateChannel(this);
    }

    method Remove()
      requires this in poller.known && poller.Valid()
      modifies this`index, poller
      ensures poller.Valid() && poller.known == old(poller.known)
      ensures poller.table == RemoveChannel(old(poller.table), this)
    {
      poller.RemoveChannel(this);
    }
  }

  class EPollPoller {
    var channels: map<int, Channel>
    var kernel: map<int, Interest<Channel>>  // the interest set behind epollfd_
    var errors: seq<CtlError>
    ghost var known: set<Channel>            // every channel created for this loop
    ghost var table: Registry<Channel>       // the tables and the known channels as a value

    constructor ()
      ensures Valid() && table == Registry(map[], map[], map[], []) && known == {}
    {
      channels, kernel, errors := map[], map[], [];
      known, table := {}, Registry(map[], map[], map[], []);
    }

    /** The value is up to date, except for the mask of `channel`. */
    ghost predicate ValidExcept(channel: Channel)
      reads this, known
    {
      && table.channels == channels && table.kernel == kernel && table.errors == errors
      && table.chans.Keys == known
      && (forall c :: c in known ==>
           && table.chans[c].fd == c.fd && table.chans[c].index == c.index
           && (c != channel ==> table.chans[c].events == c.events))
    }

    ghost predicate Valid()
      reads this, known
    {
      && table.channels == channels && table.kernel == kernel && table.errors == errors
      && table.chans.Keys == known
      && (forall c :: c in known ==> table.chans[c] == Chan(c.fd, c.events, c.index))
    }

    /** A channel created for this loop, not registered yet. */
    method Adopt(channel: Channel)
      requires Valid() && channel !in known && channel.events == NONE_EVENT && channel.index == New
      modifies this`known, this`table
      ensures Valid() && known == old(known) + {channel}
      ensures table == Introduce(old(table), channel, channel.fd)
    {
      known := known + {channel};
      table := Introduce(table, channel, channel.fd);
    }

    predicate HasChannel(channel: Channel)
      reads this
      ensures HasChannel(channel) <==> exists fd :: fd in channels && fd == channel.fd && channels[fd] == channel
    {
      channel.fd in channels && channels[channel.fd] == channel
    }

    method UpdateChannel(channel: Channel)
      requires channel in known && ValidExcept(channel)
      modifies this, channel`index
      ensures Valid() && known == old(known)
      ensures table == SetEvents(old(table), channel, channel.events)
    {
      table := table.(chans := table.chans[channel := table.chans[channel].(events := channel.events)]);
      var index := channel.index;
      if index == New {
        channels := channels[channel.fd := channel];
        table := table.(channels := channels);
        MarkIndex(channel, Added);
        Update(Add, channel);
      } else if index == Deleted {
        MarkIndex(channel, Added);
        Update(Add, channel);
      } else {
        if channel.IsNoneEvent() {
          Update(Del, channel);
          MarkIndex(channel, Deleted);
        } else {
          Update(Mod, channel);
        }
      }
    }

    method RemoveChannel(channel: Channel)
      requires channel in known && Valid()
      modifies this, channel`index
      ensures Valid() && known == old(known)
      ensures table == Registration.RemoveChannel(old(table), channel)
    {
      channels := channels - {channel.fd};
      table := table.(channels := channels);
      if channel.index == Added {
        Update(Del, channel);
      }
      MarkIndex(channel, New);
    }

    /** Channel::set_index. */
    method MarkIndex(channel: Channel, index: Index)
      requires channel in known && Valid()
      modifies channel`index, this`table
      ensures Valid() && table == SetIndex(old(table), channel, index)
    {
      channel.index := index;
      table := SetIndex(table, channel, index);
    }

    method Update(op: CtlOp, channel: Channel)
      requires channel in known && Valid()
      modifies this`kernel, this`errors, this`table
      ensures Valid() && table == EpollCtl(old(table), op, channel)
    {
      var interest := Interest(channel.events, channel);
      table := EpollCtl(table, op, channel);
      match op
      case Add =>
        if channel.fd in kernel {
          errors := errors + [AlreadyExists(Add, channel.fd)];
        } else {
          kernel := kernel[channel.fd := interest];
        }
      case Mod =>
        if channel.fd in kernel {
          kernel := kernel[channel.fd := interest];
        } else {
          errors := errors + [NoEntry(Mod, channel.fd)];
        }
      case Del =>
        if channel.fd in kernel {
          kernel := kernel - {channel.fd};
        } else {
          errors := errors + [NoEntry(Del, channel.fd)];
        }
    }

    /** Hands the reported channels to the loop in the order of the report, each carrying its own flags;
        all of them are registered. */
    method FillActiveChannels(events: seq<(Mask, Channel)>, activeChannels: seq<Channel>) returns (active: seq<Channel>)
      requires Valid() && Agreement(table) && Reports(table, events)
      modifies (set i | 0 <= i < |events| :: events[i].1)`revents
      ensures |active| == |activeChannels| + |events| && active[..|activeChannels|] == activeChannels
      ensures forall i :: 0 <= i < |events| ==>
        var channel := active[|activeChannels| + i];
        && channel == events[i].1
        && channel.revents == events[i].0 <= channel.events + {Err, Hup}
        && channel.index == Added && HasChannel(channel)
      ensures Valid()
    {
      active := activeChannels;
      var i := 0;
      while i < |events|
        invariant 0 <= i <= |events|
        invariant |active| == |activeChannels| + i && active[..|activeChannels|] == activeChannels
        invariant forall j :: 0 <= j < i ==> active[|activeChannels| + j] == events[j].1
        invariant forall j :: 0 <= j < i ==> events[j].1.revents == events[j].0
      {
        var channel := events[i].1;
        channel.revents := events[i].0;
        active := active + [channel];
        i := i + 1;
      }
      forall j | 0 <= j < |events|
        ensures events[j].1.index == Added && HasChannel(events[j].1)
        ensures events[j].0 <= events[j].1.events + {Err, Hup}
      {
        assert Reported(table, events[j].0, events[j].1);
        assert ChanAgrees(table, events[j].1);
      }
    }
  }
}
