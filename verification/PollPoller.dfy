/** Channels and the poll(2) poller that indexes them: wf_channel.h and wf_poll_poller.cc. */
module PollPollers {
  import opened Strings

  datatype PollEvent = PollIn | PollPri | PollOut | PollErr | PollHup | PollNval | PollRdHup

  /** An event mask, as the set of its flags. */
  type Mask = set<PollEvent>

  const READ_EVENT: Mask := {PollIn, PollPri}
  const WRITE_EVENT: Mask := {PollOut}

  datatype PollFd = PollFd(fd: int, events: Mask, revents: Mask)

  /** How a registered descriptor stands: polled with a mask, or parked, its entry in the vector being -1. */
  datatype Watch = Watched(mask: Mask) | Parked(mask: Mask)

  /** Vector and indices are inverse to each other, so every registered descriptor has one entry. */
  ghost predicate Inverse(owners: seq<nat>, index: map<nat, int>) {
    && (forall fd :: fd in index ==> 0 <= index[fd] < |owners| && owners[index[fd]] == fd)
    && (forall i :: 0 <= i < |owners| ==> owners[i] in index && index[owners[i]] == i)
  }

  /** An entry holds its descriptor, or is parked. */
  ghost predicate Holds(pollfds: seq<PollFd>, owners: seq<nat>) {
    |pollfds| == |owners| &&
    forall i :: 0 <= i < |pollfds| ==> pollfds[i].fd == owners[i] || pollfds[i].fd == -1
  }

  /**
   * The poller's vector, the descriptor each entry was made for, and the index_ of every registered channel by its
   * descriptor.
   */
  datatype Table = Table(pollfds: seq<PollFd>, owners: seq<nat>, index: map<nat, int>) {
    ghost predicate Valid() {
      Inverse(owners, index) && Holds(pollfds, owners)
    }

    ghost predicate ParkedAt(i: int) {
      0 <= i < |pollfds| && pollfds[i].fd == -1
    }

    /** Nothing is parked. */
    ghost predicate Sound() {
      Valid() && forall i :: 0 <= i < |pollfds| ==> !ParkedAt(i)
    }

    /** What the table stands for. */
    ghost function Interest(): map<nat, Watch>
      requires Valid()
    {
      map fd | fd in index :: AsWatch(pollfds[index[fd]])
    }
  }

  function AsWatch(e: PollFd): Watch {
    if e.fd == -1 then Parked(e.events) else Watched(e.events)
  }

  const EMPTY: Table := Table([], [], map[])

  /** updateChannel; an empty mask parks a registered descriptor as -1, and no mask writes it back. */
  function Updated(t: Table, fd: nat, mask: Mask): Table
    requires fd in t.index ==> 0 <= t.index[fd] < |t.pollfds|
  {
    if fd !in t.index then
      Table(t.pollfds + [PollFd(fd, mask, {})], t.owners + [fd], t.index[fd := |t.pollfds|])
    else
      var i := t.index[fd];
      t.(pollfds := t.pollfds[i := PollFd(if mask == {} then -1 else t.pollfds[i].fd, mask, {})])
  }

  /** removeChannel: the last entry takes the place of the removed one; None where it reaches channels_[-1]. */
  function Removed(t: Table, fd: nat): Option<Table>
    requires t.Valid()
  {
    if fd !in t.index then Some(t)
    else
      var idx, last := t.index[fd], |t.pollfds| - 1;
      var atEnd := t.pollfds[last].fd;
      if fd == atEnd then Some(Table(t.pollfds[..last], t.owners[..last], t.index - {fd}))
      else if atEnd == -1 then None
      else Some(Table(MoveLast(t.pollfds, idx), MoveLast(t.owners, idx), (t.index - {fd})[atEnd := idx]))
  }

  function MoveLast<T>(s: seq<T>, i: int): seq<T>
    requires 0 <= i < |s|
  {
    s[i := s[|s| - 1]][..|s| - 1]
  }

  datatype Op = Update(fd: nat, mask: Mask) | Remove(fd: nat)

  /** The same operation on a plain map; what is parked stays parked until it is removed. */
  function OnMap(m: map<nat, Watch>, op: Op): map<nat, Watch> {
    match op
    case Update(fd, mask) =>
      m[fd := if fd in m && (m[fd].Parked? || mask == {}) then Parked(mask) else Watched(mask)]
    case Remove(fd) => m - {fd}
  }

  predicate Parks(t: Table, fd: nat, mask: Mask) {
    fd in t.index && mask == {}
  }

  lemma NewEntryValid(t: Table, fd: nat, mask: Mask)
    requires t.Valid() && fd !in t.index
    ensures Updated(t, fd, mask).Valid()
  {
  }

  lemma UpdatedValid(t: Table, fd: nat, mask: Mask)
    requires t.Valid()
    ensures Updated(t, fd, mask).Valid()
  {
    if fd !in t.index {
      NewEntryValid(t, fd, mask);
    }
  }

  lemma UpdatedInterest(t: Table, fd: nat, mask: Mask)
    requires t.Valid() && Updated(t, fd, mask).Valid()
    ensures Updated(t, fd, mask).Interest() == OnMap(t.Interest(), Update(fd, mask))
  {
    var u, m := Updated(t, fd, mask).Interest(), OnMap(t.Interest(), Update(fd, mask));
    forall fe | fe in m ensures fe in u && u[fe] == m[fe] {
    }
    assert u.Keys == m.Keys;
  }

  lemma UpdatedSound(t: Table, fd: nat, mask: Mask)
    requires t.Valid() && Updated(t, fd, mask).Valid()
    ensures Updated(t, fd, mask).Sound() <==> t.Sound() && !Parks(t, fd, mask)
  {
    var u := Updated(t, fd, mask);
    forall i | t.ParkedAt(i) ensures u.ParkedAt(i) {
    }
    if Parks(t, fd, mask) {
      assert u.ParkedAt(t.index[fd]);
    }
    forall i | u.ParkedAt(i) ensures t.ParkedAt(i) || (Parks(t, fd, mask) && i == t.index[fd]) {
    }
  }

  /** Every update is one of the map; it leaves the table sound just when it was sound and the update does not park. */
  lemma UpdateRefinesMap(t: Table, fd: nat, mask: Mask)
    requires t.Valid()
    ensures var u := Updated(t, fd, mask);
            && u.Valid() && u.Interest() == OnMap(t.Interest(), Update(fd, mask))
            && (u.Sound() <==> t.Sound() && !Parks(t, fd, mask))
            && fd in u.index && u.pollfds[u.index[fd]].events == mask && u.pollfds[u.index[fd]].revents == {}
  {
    UpdatedValid(t, fd, mask);
    UpdatedInterest(t, fd, mask);
    UpdatedSound(t, fd, mask);
  }

  lemma RemovedValid(t: Table, fd: nat)
    requires t.Valid() && Removed(t, fd).Some?
    ensures Removed(t, fd).value.Valid()
  {
    if fd in t.index {
      var idx, last := t.index[fd], |t.pollfds| - 1;
      assert t.index[t.owners[last]] == last;
    }
  }

  /** Removal leaves every other descriptor its entry. */
  lemma RemovedEntry(t: Table, fd: nat, fe: nat)
    requires t.Valid() && Removed(t, fd).Some? && Removed(t, fd).value.Valid()
    requires fe in t.index && fe != fd
    ensures var r := Removed(t, fd).value;
            fe in r.index && r.pollfds[r.index[fe]] == t.pollfds[t.index[fe]]
  {
    var last := |t.pollfds| - 1;
    if fd in t.index && t.pollfds[last].fd != fd {
      assert t.index[t.owners[last]] == last && t.pollfds[last].fd == t.owners[last];
    }
  }

  lemma RemovedInterest(t: Table, fd: nat)
    requires t.Valid() && Removed(t, fd).Some? && Removed(t, fd).value.Valid()
    ensures Removed(t, fd).value.Interest() == OnMap(t.Interest(), Remove(fd))
  {
    var r, m := Removed(t, fd).value.Interest(), OnMap(t.Interest(), Remove(fd));
    forall fe | fe in m ensures fe in r && r[fe] == m[fe] {
      RemovedEntry(t, fd, fe);
    }
    assert r.Keys == m.Keys;
  }

  /** Nothing but this descriptor is parked. */
  ghost predicate ParksOnly(t: Table, fd: nat)
    requires t.Valid() && fd in t.index
  {
    forall i :: t.ParkedAt(i) ==> i == t.index[fd]
  }

  lemma RemovedSound(t: Table, fd: nat)
    requires t.Valid() && fd in t.index && Removed(t, fd).Some? && Removed(t, fd).value.Valid()
    ensures Removed(t, fd).value.Sound() <==> ParksOnly(t, fd)
  {
    var idx, last, r := t.index[fd], |t.pollfds| - 1, Removed(t, fd).value;
    forall i | t.ParkedAt(i) && i != idx ensures r.ParkedAt(i) {
      assert i < last && r.pollfds[i] == t.pollfds[i];
    }
    forall i | r.ParkedAt(i) ensures t.ParkedAt(i) && i != idx {
    }
  }

  /**
   * Swap and pop is removal from the map. It reaches channels_[-1] just when the last entry is parked, and leaves the
   * table sound just when nothing else was parked.
   */
  lemma RemoveRefinesMap(t: Table, fd: nat)
    requires t.Valid()
    ensures var r := Removed(t, fd);
            && (r == None <==> fd in t.index && t.ParkedAt(|t.pollfds| - 1))
            && (r.Some? ==> r.value.Valid() && r.value.Interest() == OnMap(t.Interest(), Remove(fd)))
            && (r.Some? ==> fd !in r.value.index)
            && (r.Some? && fd in t.index ==> (r.value.Sound() <==> ParksOnly(t, fd)))
  {
    if Removed(t, fd).Some? {
      RemovedValid(t, fd);
      RemovedInterest(t, fd);
      if fd in t.index {
        RemovedSound(t, fd);
      }
    }
  }

  function Applied(t: Table, op: Op): Option<Table>
    requires t.Valid()
  {
    match op
    case Update(fd, mask) => Some(Updated(t, fd, mask))
    case Remove(fd) => Removed(t, fd)
  }

  lemma OpRefinesMap(t: Table, op: Op)
    requires t.Valid() && Applied(t, op).Some?
    ensures Applied(t, op).value.Valid() && Applied(t, op).value.Interest() == OnMap(t.Interest(), op)
  {
    match op {
      case Update(fd, mask) => UpdateRefinesMap(t, fd, mask);
      case Remove(fd) => RemoveRefinesMap(t, fd);
    }
  }

  function MapAfter(m: map<nat, Watch>, ops: seq<Op>): map<nat, Watch>
    decreases |ops|
  {
    if ops == [] then m else MapAfter(OnMap(m, ops[0]), ops[1..])
  }

  /** The table after the operations; None if one of them reaches channels_[-1]. */
  ghost function After(t: Table, ops: seq<Op>): (r: Option<Table>)
    requires t.Valid()
    decreases |ops|
  {
    if ops == [] then Some(t)
    else if Applied(t, ops[0]) == None then None
    else
      OpRefinesMap(t, ops[0]);
      After(Applied(t, ops[0]).value, ops[1..])
  }

  /** Over every run, parked descriptors included, the poller is that map as long as it does not reach channels_[-1]. */
  lemma {:induction false} RunRefinesMap(t: Table, ops: seq<Op>)
    requires t.Valid() && After(t, ops).Some?
    ensures After(t, ops).value.Valid() && After(t, ops).value.Interest() == MapAfter(t.Interest(), ops)
    decreases |ops|
  {
    if ops != [] {
      OpRefinesMap(t, ops[0]);
      RunRefinesMap(Applied(t, ops[0]).value, ops[1..]);
    }
  }

  /** No operation of the list parks a descriptor; the plain map is enough to tell. */
  predicate NeverParks(m: map<nat, Watch>, ops: seq<Op>)
    decreases |ops|
  {
    ops != [] ==>
      !(ops[0].Update? && ops[0].fd in m && ops[0].mask == {}) && NeverParks(OnMap(m, ops[0]), ops[1..])
  }

  /** A run that never parks does not reach it, and keeps vector and indices inverse. */
  lemma {:induction false} UnparkedRunIsSound(t: Table, ops: seq<Op>)
    requires t.Sound() && NeverParks(t.Interest(), ops)
    ensures After(t, ops).Some? && After(t, ops).value.Sound()
    decreases |ops|
  {
    if ops != [] {
      match ops[0] {
        case Update(fd, mask) => UpdateRefinesMap(t, fd, mask);
        case Remove(fd) => RemoveRefinesMap(t, fd);
      }
      UnparkedRunIsSound(Applied(t, ops[0]).value, ops[1..]);
    }
  }

  /** No run of updates makes a table sound that has a parked descriptor. */
  lemma {:induction false} UpdatesNeverHeal(t: Table, ops: seq<Op>)
    requires t.Valid() && !t.Sound() && forall op :: op in ops ==> op.Update?
    ensures After(t, ops).Some? && !After(t, ops).value.Sound()
    decreases |ops|
  {
    if ops != [] {
      assert ops[0] in ops && forall op :: op in ops[1..] ==> op in ops;
      UpdateRefinesMap(t, ops[0].fd, ops[0].mask);
      UpdatesNeverHeal(Applied(t, ops[0]).value, ops[1..]);
    }
  }

  /**
   * Park one descriptor of a sound table: no update brings it back; its removal does, unless its entry is the last one,
   * in which case every removal reaches channels_[-1].
   */
  lemma ParkedThenRemoved(t: Table, fd: nat, mask: Mask)
    requires t.Sound() && fd in t.index
    ensures var u := Updated(t, fd, {});
            && u.Valid() && !Updated(u, fd, mask).Sound()
            && if t.index[fd] == |t.pollfds| - 1 then forall fe :: fe in u.index ==> Removed(u, fe) == None
               else Removed(u, fd).Some? && Removed(u, fd).value.Sound()
  {
    var u := Updated(t, fd, {});
    UpdateRefinesMap(t, fd, {});
    UpdateRefinesMap(u, fd, mask);
    forall i | u.ParkedAt(i) ensures i == t.index[fd] {
      assert !t.ParkedAt(i);
    }
    if t.index[fd] == |t.pollfds| - 1 {
      assert u.ParkedAt(|u.pollfds| - 1);
      forall fe | fe in u.index ensures Removed(u, fe) == None {
        RemoveRefinesMap(u, fe);
      }
    } else {
      RemoveRefinesMap(u, fd);
    }
  }

  // ---- The active list ----

  /** The entries poll reported, in the order of the vector. */
  function Active(pollfds: seq<PollFd>): seq<PollFd> {
    if pollfds == [] then []
    else (if pollfds[0].revents != {} then [pollfds[0]] else []) + Active(pollfds[1..])
  }

  lemma {:induction false} ActiveExactly(pollfds: seq<PollFd>, e: PollFd)
    ensures e in Active(pollfds) <==> e in pollfds && e.revents != {}
  {
    if pollfds != [] {
      assert pollfds == [pollfds[0]] + pollfds[1..];
      ActiveExactly(pollfds[1..], e);
    }
  }

  lemma {:induction false} ActiveConcat(a: seq<PollFd>, b: seq<PollFd>)
    ensures Active(a + b) == Active(a) + Active(b)
  {
    if a == [] {
      assert a + b == b;
    } else {
      assert (a + b)[0] == a[0] && (a + b)[1..] == a[1..] + b;
      ActiveConcat(a[1..], b);
    }
  }

  lemma ActiveOneMore(pollfds: seq<PollFd>, i: nat)
    requires i < |pollfds|
    ensures Active(pollfds[..i + 1]) ==
            Active(pollfds[..i]) + if pollfds[i].revents != {} then [pollfds[i]] else []
  {
    assert pollfds[..i + 1] == pollfds[..i] + [pollfds[i]];
    ActiveConcat(pollfds[..i], [pollfds[i]]);
    assert Active([pollfds[i]][1..]) == [];
  }

  lemma ActivePrefix(pollfds: seq<PollFd>, i: nat)
    requires i <= |pollfds|
    ensures var head, all := Active(pollfds[..i]), Active(pollfds);
            |head| <= |all| && head == all[..|head|] && (i == |pollfds| ==> head == all)
  {
    assert pollfds == pollfds[..i] + pollfds[i..];
    ActiveConcat(pollfds[..i], pollfds[i..]);
    assert i == |pollfds| ==> pollfds[..i] == pollfds;
  }

  class Channel {
    const fd: nat
    var events: Mask
    var revents: Mask
    var index: int

    constructor (fdArg: nat)
      ensures fd == fdArg && events == {} && revents == {} && index == -1
    {
      fd, events, revents, index := fdArg, {}, {}, -1;
    }

    method EnableReading()
      modifies this`events
      ensures events == old(events) + READ_EVENT
    {
      events := events + READ_EVENT;
    }

    method EnableWriting()
      modifies this`events
      ensures events == old(events) + WRITE_EVENT
    {
      events := events + WRITE_EVENT;
    }

    method DisableWriting()
      modifies this`events
      ensures events == old(events) - WRITE_EVENT
    {
      events := events - WRITE_EVENT;
    }

    /** The source sets no bits here, so nothing is disabled. */
    method DisableAll()
      modifies this`events
      ensures events == old(events)
    {
      events := events + {};
    }

    predicate IsWriting()
      reads this
    {
      PollOut in events
    }
  }

  class PollPoller {
    var channels: map<nat, Channel>
    var pollfds: seq<PollFd>
    ghost var owners: seq<nat>

    ghost function View(): Table
      reads this, channels.Values`index
    {
      Table(pollfds, owners, map fd | fd in channels :: channels[fd].index)
    }

    ghost predicate Valid()
      reads this, channels.Values`index
    {
      View().Valid() && forall fd :: fd in channels ==> channels[fd].fd == fd
    }

    /** What the source asserts of a channel handed to it. */
    ghost predicate Knows(ch: Channel)
      reads this, ch`index
    {
      if ch.index < 0 then ch.fd !in channels else ch.fd in channels && channels[ch.fd] == ch
    }

    constructor ()
      ensures Valid() && View() == EMPTY
    {
      channels, pollfds, owners := map[], [], [];
    }

    method UpdateChannel(channel: Channel)
      requires Valid() && Knows(channel)
      modifies this, channel`index
      ensures Valid() && View() == Updated(old(View()), channel.fd, channel.events)
      ensures channels == old(channels)[channel.fd := channel] && Knows(channel)
      ensures View().Interest() == OnMap(old(View().Interest()), Update(channel.fd, channel.events))
      ensures View().Sound() <==> old(View().Sound()) && (old(channel.index) < 0 || channel.events != {})
    {
      UpdateRefinesMap(View(), channel.fd, channel.events);
      if channel.index < 0 {
        AddEntry(channel);
      } else {
        ChangeEntry(channel);
      }
    }

    method AddEntry(channel: Channel)
      requires Valid() && Knows(channel) && channel.index < 0
      modifies this, channel`index
      ensures View() == Updated(old(View()), channel.fd, channel.events)
      ensures channels == old(channels)[channel.fd := channel] && channel.index >= 0
    {
      ghost var t := View();
      pollfds, owners := pollfds + [PollFd(channel.fd, channel.events, {})], owners + [channel.fd];
      channel.index := |pollfds| - 1;
      channels := channels[channel.fd := channel];
      assert View().index == t.index[channel.fd := |t.pollfds|];
    }

    method ChangeEntry(channel: Channel)
      requires Valid() && Knows(channel) && channel.index >= 0
      modifies this`pollfds
      ensures View() == Updated(old(View()), channel.fd, channel.events)
      ensures channels == channels[channel.fd := channel]
    {
      var idx := channel.index;
      assert View().index[channel.fd] == idx;
      var fd := if channel.events == {} then -1 else pollfds[idx].fd;
      pollfds := pollfds[idx := PollFd(fd, channel.events, {})];
    }

    /** A registered channel can be removed while the last entry is not parked; the source dereferences null then. */
    method RemoveChannel(channel: Channel)
      requires Valid() && Knows(channel) && Removed(View(), channel.fd).Some?
      modifies this, channels.Values`index
      ensures Valid() && Some(View()) == Removed(old(View()), channel.fd)
      ensures View().Interest() == old(View().Interest()) - {channel.fd}
      ensures channels == old(channels) - {channel.fd} && channel.index == old(channel.index)
    {
      ghost var t := View();
      RemoveRefinesMap(t, channel.fd);
      if channel.index >= 0 {
        assert t.index[channel.fd] == channel.index;
        assert t.owners[|pollfds| - 1] in t.index && pollfds[|pollfds| - 1].fd == t.owners[|pollfds| - 1];
        SwapAndPop(channel);
      } else {
        assert channels == channels - {channel.fd};
      }
    }

    method SwapAndPop(channel: Channel)
      requires Valid() && Knows(channel) && 0 <= channel.index < |pollfds|
      requires pollfds[|pollfds| - 1].fd in channels && channels[pollfds[|pollfds| - 1].fd].index == |pollfds| - 1
      modifies this, channels.Values`index
      ensures Some(View()) == Removed(old(View()), channel.fd)
      ensures channels == old(channels) - {channel.fd} && channel.index == old(channel.index)
    {
      ghost var t := View();
      assert t.index[channel.fd] == channel.index;
      channels := channels - {channel.fd};
      var idx := channel.index;
      var last := |pollfds| - 1;
      var channelAtEnd := pollfds[last].fd;
      if channel.fd != channelAtEnd {
        channels[channelAtEnd].index := idx;
        pollfds := pollfds[idx := pollfds[last]][last := pollfds[idx]];
        owners := owners[idx := owners[last]][last := owners[idx]];
      }
      pollfds, owners := pollfds[..last], owners[..last];
      if channel.fd != channelAtEnd {
        assert channelAtEnd != -1;
        assert pollfds == MoveLast(t.pollfds, idx) && owners == MoveLast(t.owners, idx);
        assert View().index == (t.index - {channel.fd})[channelAtEnd := idx];
      } else {
        assert View().index == t.index - {channel.fd};
      }
    }

    /** poll ignores negative descriptors, and reports nothing for them. */
    ghost predicate ParkedAreSilent()
      reads this
    {
      forall i :: 0 <= i < |pollfds| && pollfds[i].fd == -1 ==> pollfds[i].revents == {}
    }

    /** The first numEvents reported channels, in vector order: all of them when numEvents is poll's own count. */
    method FillActiveChannels(numEvents: int, activeChannels: seq<Channel>) returns (filled: seq<Channel>)
      requires Valid() && ParkedAreSilent()
      modifies channels.Values`revents
      ensures Valid() && View() == old(View())
      ensures var active := Active(pollfds);
              var n := if numEvents < 0 then 0 else if numEvents < |active| then numEvents else |active|;
              activeChannels <= filled && Report(filled[|activeChannels|..], active[..n])
      ensures forall c :: c in channels.Values && c !in filled[|activeChannels|..] ==> c.revents == old(c.revents)
    {
      ghost var found: seq<Channel>, i: nat;
      filled, found, i := Scan(numEvents, activeChannels);
      assert filled[|activeChannels|..] == found;
      ActivePrefix(pollfds, i);
    }

    /** What has events is registered, under its own index. */
    ghost predicate Listed()
      reads this, channels.Values`index
    {
      forall k :: 0 <= k < |pollfds| && pollfds[k].revents != {} ==>
        pollfds[k].fd in channels && channels[pollfds[k].fd].index == k
    }

    lemma AllListed()
      requires Valid() && ParkedAreSilent()
      ensures Listed()
    {
      var t := View();
      forall k | 0 <= k < |pollfds| && pollfds[k].revents != {}
        ensures pollfds[k].fd in channels && channels[pollfds[k].fd].index == k
      {
        assert t.owners[k] in t.index;
      }
    }

    /** The first i entries are done. */
    ghost predicate Scanned(i: int, found: seq<Channel>)
      reads this, channels.Values, found
    {
      && Listed() && 0 <= i <= |pollfds| && Report(found, Active(pollfds[..i]))
      && forall c :: c in found ==> c.index < i
    }

    /** The loop's body: the channel of the entry at i is activated if it has events. */
    method Visit(i: nat, activeChannels: seq<Channel>, ghost found: seq<Channel>)
        returns (reported: bool, filled: seq<Channel>, ghost others: seq<Channel>)
      requires Scanned(i, found) && i < |pollfds|
      modifies channels.Values`revents
      ensures Scanned(i + 1, found + others) && filled == activeChannels + others
      ensures forall c :: c in channels.Values && c !in others ==> c.revents == old(c.revents)
      ensures |others| == if reported then 1 else 0
    {
      ActiveOneMore(pollfds, i);
      var pfd := pollfds[i];
      reported := pfd.revents != {};
      filled, others := activeChannels, [];
      if reported {
        var channel := channels[pfd.fd];
        Activate(channel, pfd, found, Active(pollfds[..i]));
        filled, others := filled + [channel], [channel];
      } else {
        assert found + others == found;
      }
    }

    /** The loop of fillActiveChannels; it leaves with `found` from the first i entries. */
    method Scan(numEvents: int, activeChannels: seq<Channel>)
        returns (filled: seq<Channel>, ghost found: seq<Channel>, ghost at: nat)
      requires Valid() && ParkedAreSilent()
      modifies channels.Values`revents
      ensures at <= |pollfds| && filled == activeChannels + found && Report(found, Active(pollfds[..at]))
      ensures forall c :: c in channels.Values && c !in found ==> c.revents == old(c.revents)
      ensures if numEvents <= 0 then found == [] else |found| == numEvents || (|found| < numEvents && at == |pollfds|)
    {
      filled, found := activeChannels, [];
      var left := numEvents;
      var i := 0;
      AllListed();
      while i < |pollfds| && left > 0
        invariant Scanned(i, found) && filled == activeChannels + found
        invariant left == numEvents - |found| && (left >= 0 || found == [])
        invariant forall c :: c in channels.Values && c !in found ==> c.revents == old(c.revents)
      {
        var reported;
        ghost var others;
        reported, filled, others := Visit(i, filled, found);
        if reported {
          left := left - 1;
        }
        found := found + others;
        i := i + 1;
      }
      at := i;
    }

    /** The channels are those registered for the entries, one by one, and carry their events. */
    ghost predicate Report(found: seq<Channel>, entries: seq<PollFd>)
      reads this, found
    {
      |found| == |entries| && forall k :: 0 <= k < |found| ==>
        && entries[k].fd in channels && channels[entries[k].fd] == found[k]
        && found[k].revents == entries[k].revents
    }

    method Activate(channel: Channel, pfd: PollFd, ghost found: seq<Channel>, ghost entries: seq<PollFd>)
      requires pfd.fd in channels && channels[pfd.fd] == channel
      requires Report(found, entries) && channel !in found
      modifies channel`revents
      ensures Report(found + [channel], entries + [pfd])
    {
      channel.revents := pfd.revents;
    }
  }
}
