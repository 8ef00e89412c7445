/**
 The message-counting simulator. Node `src` sends one body to everyone, itself first; a node that gets the
 body for the first time from somebody else passes it on to the nodes with higher ids only. A 32-bit
 counter goes up by one for every copy sent. Copies a node has set out to send and not sent yet are `owed`.
 */
module Simulator {
  import opened Sums

  newtype int32 = x: int | -0x8000_0000 <= x < 0x8000_0000

  datatype Channel = Channel(source: nat, target: nat)

  function Wrap32(x: int): int32 {
    ((x + 0x8000_0000) % 0x1_0000_0000 - 0x8000_0000) as int32
  }

  datatype Msg = Msg(body: string, from: nat)

  type Copies = map<Channel, seq<Msg>>

  datatype Sim = Sim(received: map<nat, set<string>>, owed: Copies, chan: Copies, counter: int32)

  function Below(n: nat): (ids: set<nat>)
    ensures |ids| == n && forall i: nat :: i in ids <==> i < n
  {
    if n == 0 then {} else Below(n - 1) + {n - 1}
  }

  function Channels(n: nat): (cs: set<Channel>)
    ensures forall c :: c in cs <==> c.source < n && c.target < n
  {
    set i, j | i in Below(n) && j in Below(n) :: Channel(i, j)
  }

  function NoCopies(cs: set<Channel>): Copies {
    map c | c in cs :: []
  }

  function Fresh(n: nat): Sim {
    Sim(map i | i in Below(n) :: {}, NoCopies(Channels(n)), NoCopies(Channels(n)), 0)
  }

  function Higher(n: nat, i: nat): set<nat> {
    set j | j in Below(n) && i < j
  }

  // ---------- Steps ----------

  /** A copy of `body` from `i` at the end of each channel to `dests`. */
  function Appended(copies: Copies, i: nat, dests: set<nat>, body: string): Copies {
    map c | c in copies :: if c.source == i && c.target in dests then copies[c] + [Msg(body, i)] else copies[c]
  }

  /** Node `i` sets out to send `body` to each of `dests`. */
  function Owing(s: Sim, i: nat, dests: set<nat>, body: string): Sim {
    s.(owed := Appended(s.owed, i, dests, body))
  }

  predicate Ready(s: Sim, c: Channel) {
    c in s.owed && s.owed[c] != [] && c in s.chan
  }

  /** One copy owed on channel `c` is sent and counted. */
  function Put(s: Sim, c: Channel): Sim
    requires Ready(s, c)
  {
    s.(owed := s.owed[c := s.owed[c][1..]], chan := s.chan[c := s.chan[c] + [s.owed[c][0]]],
       counter := Wrap32(s.counter as int + 1))
  }

  /** The first copy waiting on channel `c` can be taken. */
  predicate Waiting(s: Sim, c: Channel) {
    c in s.chan && s.chan[c] != [] && c.target in s.received
  }

  function Taken(s: Sim, c: Channel): Sim
    requires Waiting(s, c)
  {
    s.(chan := s.chan[c := s.chan[c][1..]])
  }

  function Noted(s: Sim, i: nat, body: string): Sim
    requires i in s.received
  {
    s.(received := s.received[i := s.received[i] + {body}])
  }

  /** Handles the first copy on channel `c`. */
  function Handled(s: Sim, n: nat, c: Channel): Sim
    requires Waiting(s, c)
  {
    var m := s.chan[c][0];
    var t := Taken(s, c);
    if m.body in s.received[c.target] then t
    else if m.from == c.target then Noted(t, c.target, m.body)
    else Owing(Noted(t, c.target, m.body), c.target, Higher(n, c.target), m.body)
  }

  // ---------- The program ----------

  /** Node `i` has sent `done` of the copies it set out to send to `dests`. */
  function Partly(s: Sim, i: nat, dests: set<nat>, done: set<nat>, body: string): Sim {
    s.(owed := Appended(s.owed, i, dests - done, body), chan := Appended(s.chan, i, done, body),
       counter := Wrap32(s.counter as int + |done|))
  }

  /** Every copy is sent. */
  function Sent(s: Sim, i: nat, dests: set<nat>, body: string): Sim {
    s.(chan := Appended(s.chan, i, dests, body), counter := Wrap32(s.counter as int + |dests|))
  }

  /** The state after one copy has been sent on each of the channels `sent`, in turn. */
  function AfterPuts(s: Sim, sent: seq<Channel>): Sim {
    if sent == [] then s else
      var p, c := AfterPuts(s, sent[..|sent| - 1]), sent[|sent| - 1];
      if Ready(p, c) then Put(p, c) else p
  }

  /** Each of those sends is a step: a copy is owed on its channel when its turn comes. */
  ghost predicate CanPuts(s: Sim, sent: seq<Channel>) {
    sent != [] ==>
      var front := sent[..|sent| - 1];
      CanPuts(s, front) && Ready(AfterPuts(s, front), sent[|sent| - 1])
  }

  lemma PutsSnoc(s: Sim, sent: seq<Channel>, c: Channel)
    requires CanPuts(s, sent) && Ready(AfterPuts(s, sent), c)
    ensures CanPuts(s, sent + [c]) && AfterPuts(s, sent + [c]) == Put(AfterPuts(s, sent), c)
  {
    assert (sent + [c])[..|sent|] == sent;
  }

  lemma WrapTwice(x: int, k: int)
    ensures Wrap32(Wrap32(x) as int + k) == Wrap32(x + k)
  {
    var y := x + 0x8000_0000;
    assert (y % 0x1_0000_0000 + k) % 0x1_0000_0000 == (y + k) % 0x1_0000_0000;
  }

  lemma WrapsNothing(x: int32)
    ensures Wrap32(x as int) == x
  {
  }

  lemma AppendedNowhere(copies: Copies, i: nat, body: string)
    ensures Appended(copies, i, {}, body) == copies
  {
  }

  lemma PartlyEnds(s: Sim, i: nat, dests: set<nat>, body: string)
    ensures Partly(s, i, dests, {}, body) == Owing(s, i, dests, body) == s.(owed := Owing(s, i, dests, body).owed)
    ensures Partly(s, i, dests, dests, body) == Sent(s, i, dests, body)
  {
    hide Wrap32, Appended;
    AppendedNowhere(s.chan, i, body);
    AppendedNowhere(s.owed, i, body);
    WrapsNothing(s.counter);
    var none: set<nat> := {};
    assert dests - none == dests && dests - dests == none;
  }

  lemma AppendedOneMore(copies: Copies, i: nat, done: set<nat>, j: nat, body: string)
    requires j !in done && Channel(i, j) in copies
    ensures var c, now := Channel(i, j), Appended(copies, i, done, body);
            c in now && now[c := now[c] + [Msg(body, i)]] == Appended(copies, i, done + {j}, body)
  {
  }

  lemma AppendedOneLess(copies: Copies, i: nat, rest: set<nat>, j: nat, body: string)
    requires j in rest && Channel(i, j) in copies && copies[Channel(i, j)] == []
    ensures var c, now := Channel(i, j), Appended(copies, i, rest, body);
            c in now && now[c] == [Msg(body, i)] && now[c := []] == Appended(copies, i, rest - {j}, body)
  {
  }

  /** Sending one more of the copies set out. */
  lemma PartlyStep(s: Sim, i: nat, dests: set<nat>, done: set<nat>, j: nat, body: string)
    requires j in dests && j !in done && Channel(i, j) in s.chan && Channel(i, j) in s.owed && s.owed[Channel(i, j)] == []
    ensures Ready(Partly(s, i, dests, done, body), Channel(i, j))
    ensures Put(Partly(s, i, dests, done, body), Channel(i, j)) == Partly(s, i, dests, done + {j}, body)
  {
    hide Wrap32, Appended;
    WrapTwice(s.counter as int + |done|, 1);
    AppendedOneMore(s.chan, i, done, j, body);
    AppendedOneLess(s.owed, i, dests - done, j, body);
    assert dests - done - {j} == dests - (done + {j});
  }

  lemma BelowIds(n: nat)
    ensures forall i: nat :: i in Below(n) <==> i < n
  {
  }

  lemma SetsStart(all: set<nat>, id: nat)
    requires id in all
    ensures all - all + {id} == {id} && all - {} + {id} == all
  {
  }

  lemma SetsStep(all: set<nat>, left: set<nat>, id: nat, to: nat)
    requires left <= all && to in left
    ensures to == id ==> all - (left - {to}) + {id} == all - left + {id}
    ensures to != id ==> to !in all - left + {id} && all - (left - {to}) + {id} == all - left + {id} + {to}
  {
  }

  class Group {
    const n: nat
    var received: map<nat, set<string>>
    ghost var owed: Copies
    var chan: Copies
    var counter: int32

    constructor (n: nat)
      ensures this.n == n && Abs() == Fresh(n) && Valid()
    {
      this.n := n;
      received := map i | i in Below(n) :: {};
      owed, chan := NoCopies(Channels(n)), NoCopies(Channels(n));
      counter := 0;
    }

    ghost function Abs(): Sim
      reads this
    {
      Sim(received, owed, chan, counter)
    }

    /** The channels are those of the group, and nobody is in the middle of sending. */
    ghost predicate Valid()
      reads this
    {
      chan.Keys == Channels(n) && owed == NoCopies(Channels(n))
    }

    method Add(x: int32)
      modifies `counter
      ensures counter == Wrap32(old(counter) as int + x as int)
    {
      counter := Wrap32(counter as int + x as int);
    }

    /** Counts one copy owed and puts it on its channel. */
    method Send(i: nat, j: nat, body: string)
      requires Ready(Abs(), Channel(i, j)) && owed[Channel(i, j)][0] == Msg(body, i)
      modifies `chan, `counter, `owed
      ensures Abs() == Put(old(Abs()), Channel(i, j))
    {
      var c := Channel(i, j);
      Add(1);
      chan := chan[c := chan[c] + [Msg(body, i)]];
      owed := owed[c := owed[c][1..]];
    }

    /** Sends one more copy of a send to `dests`. */
    method SendNext(ghost was: Sim, i: nat, ghost dests: set<nat>, ghost done: set<nat>, j: nat, body: string)
      requires was.chan.Keys == Channels(n) && was.owed == NoCopies(Channels(n)) && i < n && j < n
      requires j in dests && j !in done && Abs() == Partly(was, i, dests, done, body)
      modifies `chan, `counter, `owed
      ensures Abs() == Partly(was, i, dests, done + {j}, body)
      ensures Ready(old(Abs()), Channel(i, j)) && Abs() == Put(old(Abs()), Channel(i, j))
    {
      PartlyStep(was, i, dests, done, j, body);
      PartlyHead(was, i, dests, done, j, body);
      hide Partly, Put, Ready, Channels;
      Send(i, j, body);
    }

    /** Sends to everyone but oneself, in any order. */
    method SendOthers(ghost was: Sim, id: nat, body: string) returns (ghost sent: seq<Channel>)
      requires id < n && was.chan.Keys == Channels(n) && was.owed == NoCopies(Channels(n))
      requires Abs() == Partly(was, id, Below(n), {id}, body)
      modifies `chan, `counter, `owed
      ensures Abs() == Partly(was, id, Below(n), Below(n), body)
      ensures CanPuts(old(Abs()), sent) && Abs() == AfterPuts(old(Abs()), sent)
    {
      hide Partly, Channels, NoCopies, Below, Ready, Put;
      BelowIds(n);
      ghost var start, all, done := Abs(), Below(n), {id};
      sent := [];
      var left := Below(n);
      SetsStart(all, id);
      while left != {}
        invariant left <= all && done == all - left + {id} && Abs() == Partly(was, id, all, done, body)
        invariant CanPuts(start, sent) && Abs() == AfterPuts(start, sent)
        decreases left
      {
        var to :| to in left;
        SetsStep(all, left, id, to);
        left := left - {to};
        if to == id {
          continue;
        }
        SendNext(was, id, all, done, to, body);
        done := done + {to};
        PutsSnoc(start, sent, Channel(id, to));
        sent := sent + [Channel(id, to)];
      }
    }

    /** Sends to everyone, to oneself first and to the others in any order; each send is a step of the machine. */
    method BM(id: nat, body: string) returns (ghost first: Channel, ghost others: seq<Channel>)
      requires id < n && Valid()
      modifies `chan, `counter, `owed
      ensures Valid() && Abs() == Sent(old(Abs()), id, Below(n), body)
      ensures var s := Owing(old(Abs()), id, Below(n), body);
              first == Channel(id, id) && Ready(s, first)
              && CanPuts(Put(s, first), others) && Abs() == AfterPuts(Put(s, first), others)
    {
      hide Partly, Sent, Channels, NoCopies, Owing, Below, Ready, Put, CanPuts, AfterPuts;
      ghost var was, all := Abs(), Below(n);
      PartlyEnds(was, id, all, body);
      owed := Owing(was, id, all, body).owed;
      BelowIds(n);
      first := Channel(id, id);
      SendNext(was, id, all, {}, id, body);
      assert {} + {id} == {id};
      others := SendOthers(was, id, body);
      SentStaysValid(was, n, id, all, body);
    }

    /** Sends to the nodes with higher ids, in any order; each send is a step of the machine. */
    method BMA(id: nat, body: string) returns (ghost sent: seq<Channel>)
      requires id < n && Valid()
      modifies `chan, `counter, `owed
      ensures Valid() && Abs() == Sent(old(Abs()), id, Higher(n, id), body)
      ensures var s := Owing(old(Abs()), id, Higher(n, id), body);
              CanPuts(s, sent) && Abs() == AfterPuts(s, sent)
    {
      hide Partly, Sent, Channels, NoCopies, Owing, Ready, Put;
      ghost var was, dests := Abs(), Higher(n, id);
      PartlyEnds(was, id, dests, body);
      owed := Owing(was, id, dests, body).owed;
      ghost var start, done: set<nat> := Abs(), {};
      sent := [];
      var left := Below(n);
      while left != {}
        invariant left <= Below(n) && done == dests - left && Abs() == Partly(was, id, dests, done, body)
        invariant CanPuts(start, sent) && Abs() == AfterPuts(start, sent)
        decreases left
      {
        var memberID :| memberID in left;
        left := left - {memberID};
        if memberID > id {
          SendNext(was, id, dests, done, memberID, body);
          done := done + {memberID};
          PutsSnoc(start, sent, Channel(id, memberID));
          sent := sent + [Channel(id, memberID)];
        }
      }
      assert done == dests;
      SentStaysValid(was, n, id, dests, body);
    }

    /**
     One turn of the receive loop on channel `c`: the machine's receipt, followed by one step for each copy that
     leaves owed, until nothing is.
     */
    method BD(c: Channel) returns (ghost sent: seq<Channel>)
      requires Valid() && Waiting(Abs(), c)
      modifies this
      ensures Valid() && CanPuts(Handled(old(Abs()), n, c), sent) && Abs() == AfterPuts(Handled(old(Abs()), n, c), sent)
    {
      hide Sent;
      sent := [];
      var msg := chan[c][0];
      chan := chan[c := chan[c][1..]];
      if msg.body !in received[c.target] {
        received := received[c.target := received[c.target] + {msg.body}];
        if msg.from != c.target {
          sent := BMA(c.target, msg.body);
        }
      }
    }
  }

  lemma PartlyHead(s: Sim, i: nat, dests: set<nat>, done: set<nat>, j: nat, body: string)
    requires j in dests && j !in done && Channel(i, j) in s.owed && s.owed[Channel(i, j)] == []
    ensures Channel(i, j) in Partly(s, i, dests, done, body).owed
    ensures Partly(s, i, dests, done, body).owed[Channel(i, j)] == [Msg(body, i)]
  {
  }

  lemma SentStaysValid(s: Sim, n: nat, i: nat, dests: set<nat>, body: string)
    ensures var t := Sent(s, i, dests, body); t.chan.Keys == s.chan.Keys && t.owed == s.owed && t.received == s.received
  {
  }
}
