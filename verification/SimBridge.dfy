/** The simulator object: its buffer, alice's neighbour table and counters updated
  * in place, every method proved to be the corresponding move and to stay safe. */
module SimBridge {
  import opened Basics
  import opened InternetChecksum
  import opened Frames
  import opened TwoHosts
  import opened TwoHostsSafety

  class Bridge {
    var frames: map<nat, Held>
    var nextFrameId: nat
    var arpCache: map<Ip, Mac>
    var arpAskedAt: int
    var pingSeq: nat
    var pingsAnswered: nat
    var timers: seq<Job>
    ghost var copies: nat
    ghost var accepted: seq<nat>

    ghost function State(): Sim
      reads this
    {
      Sim(frames, nextFrameId, arpCache, arpAskedAt, pingSeq, pingsAnswered, timers, copies, accepted)
    }

    ghost predicate Valid()
      reads this
    {
      Good(State())
    }

    constructor ()
      ensures State() == START && Valid()
    {
      frames, nextFrameId, arpCache, arpAskedAt := map[], 1, map[], 0;
      pingSeq, pingsAnswered, timers, copies, accepted := 0, 0, [], 0, [];
      StartGood();
    }

    method PodSend(w: Who, frame: Bytes)
      modifies `frames, `nextFrameId
      ensures State() == TwoHosts.PodSend(old(State()), w, frame)
    {
      if |frames| > MAX_HELD { return; }
      var id := nextFrameId;
      nextFrameId := nextFrameId + 1;
      frames := frames[id := Held(frame, PortOf(w))];
    }

    /** Ask until resolved, then ping. */
    method AliceTick(now: int)
      requires Valid()
      modifies this
      ensures Valid() && State() == TwoHosts.AliceTick(old(State()), now)
    {
      hide Good, Ask, Ping;
      SecondKeeps(State(), now);
      if BOB_IP !in arpCache {
        if now - arpAskedAt >= 1000 {
          arpAskedAt := now;
          PodSend(Alice, Ask());
        }
        return;
      }
      pingSeq := pingSeq + 1;
      PodSend(Alice, Ping(arpCache[BOB_IP], pingSeq));
    }

    method StormPacket()
      requires Valid()
      modifies this
      ensures Valid() && State() == TwoHosts.PodSend(old(State()), Alice, StormFrame())
    {
      hide Good, StormFrame;
      StormKeeps(State());
      PodSend(Alice, StormFrame());
    }

    /** A reply's timer fires. */
    method FireTimer(k: nat)
      requires Valid()
      modifies this
      ensures Valid() && State() == RingTimer(old(State()), k)
    {
      hide Good;
      RingKeeps(State(), k);
      if k < |timers| {
        var j := timers[k];
        timers := timers[..k] + timers[k + 1..];
        PodSend(j.who, j.frame);
      }
    }

    /** The host's kernel gets a frame its card accepted. */
    method PodReceive(w: Who, b: Bytes)
      requires |b| >= 42
      modifies `timers, `arpCache, `pingsAnswered, `accepted
      ensures State() == React(old(State()), w, Receive(w, b))
    {
      hide AnswerTo, Pong;
      var etherType := U16(b, 12);
      if etherType == ETH_ARP {
        var oper := U16(b, 20);
        if oper == 1 && b[38..42] == IpOf(w) {
          timers := timers + [Job(w, AnswerTo(w, b[22..28], b[28..32]))];
        } else if oper == 2 && w == Alice {
          arpCache := arpCache[b[28..32] := b[22..28]];
        }
        return;
      }
      if etherType == ETH_IP4 {
        if b[30..34] != IpOf(w) { return; }
        var l4 := 14 + (b[14] % 16) as nat * 4;
        if b[23] == ICMP && |b| >= l4 + 8 {
          if b[l4] == 8 {
            timers := timers + [Job(w, Pong(w, b[6..12], b[26..30], U16(b, l4 + 4), U16(b, l4 + 6)))];
          } else if b[l4] == 0 && w == Alice {
            pingsAnswered := pingsAnswered + 1;
            accepted := accepted + [U16(b, l4 + 6)];
          }
        }
      }
    }

    method HandOver(port: nat, b: Bytes)
      modifies `timers, `arpCache, `pingsAnswered, `accepted
      ensures State() == Arrive(old(State()), port, b)
    {
      hide Receive, React;
      var pod := HostAt(port);
      if pod.None? { return; }
      if |b| < 42 || (b[0..6] != MacOf(pod.value) && b[0..6] != BCAST) { return; }
      PodReceive(pod.value, b);
    }

    method DeliverInternal(port: nat, id: nat, consume: bool)
      requires Valid()
      modifies this
      ensures Valid() && State() == DeliverFrame(old(State()), port, id, consume)
    {
      hide Good, Arrive;
      DeliverKeeps(State(), port, id, consume);
      if id !in frames { return; }
      var f := frames[id];
      if consume { frames := frames - {id}; } else { copies := copies + 1; }
      HandOver(port, f.data);
    }

    method Drop(id: nat)
      requires Valid()
      modifies this
      ensures Valid() && State() == old(State()).(frames := old(frames) - {id})
    {
      hide Good;
      DropKeeps(State(), id);
      frames := frames - {id};
    }
  }
}
