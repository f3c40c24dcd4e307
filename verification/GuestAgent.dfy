/** The guest agent's wire protocol: requests and replies over a FIFO connection.

The guest answers every request, in order; a reply that was not read stays in the connection. Commands
and replies carry a running number, which the wire does not have, to tell which reply answers what. */
module GuestAgent {
  datatype Command = FsFreeze | FsThaw | FsStatus | Sync(id: nat) | OtherCommand

  datatype Value = Number(n: nat) | Frozen | Thawed | OtherValue | ErrorValue

  datatype Reply = Reply(value: Value, of: int)

  /** What the guest may answer. */
  predicate Answers(c: Command, v: Value) {
    || v == ErrorValue
    || match c
       case FsFreeze => v.Number?
       case FsThaw => v.Number?
       case FsStatus => v == Frozen || v == Thawed
       case Sync(id) => v == Number(id)
       case OtherCommand => true
  }

  /** `ClientFailure` is a ClientError: an error reply, or a reply that is not the sync id. `Broken` is any
  other exception: a timeout, which closes the connection, or a socket error or end of file, which does not. */
  datatype Result = Answered(value: Value) | Sent | ClientFailure | Broken

  /** The unread replies are those of the latest commands. */
  predicate InOrder(unread: seq<Reply>, sent: int) {
    forall i :: 0 <= i < |unread| ==> unread[i].of == sent - |unread| + i
  }

  datatype Call = Call(command: Command, fireAndForget: bool)

  function Unanswered(calls: seq<Call>): nat {
    if calls == [] then 0
    else Unanswered(calls[..|calls| - 1]) + if calls[|calls| - 1].fireAndForget then 1 else 0
  }

  /** The outstanding replies a command finds: none, if it has to connect first. */
  function Owed(connected: bool, owed: nat): nat {
    if connected then owed else 0
  }

  /** A gratuitous thaw and a sync were sent. */
  predicate SyncSent(before: seq<Command>, after: seq<Command>) {
    |after| == |before| + 2 && after[|before| + 1].Sync? && after == before + [FsThaw, after[|before| + 1]]
  }

  predicate EndsWith(commands: seq<Command>, tail: seq<Command>) {
    |tail| <= |commands| && commands[|commands| - |tail|..] == tail
  }

  class GuestAgent {
    /** `client` and `file` are set. */
    var connected: bool
    var unread: seq<Reply>
    var sent: int
    /** The connection's sync succeeded, and no stale reply happened to equal the sync id. */
    ghost var synced: bool
    /** Fire-and-forget commands since the sync. */
    ghost var owed: nat
    /** The reply that was read last. */
    ghost var last: Reply
    /** The commands sent, the replies read, and how often a connection failed, so far. */
    ghost var commands: seq<Command>
    ghost var answers: seq<Reply>
    ghost var breaks: nat
    /** How many replies were still to come when a sync had drained the connection. */
    ghost var late: nat

    /** On a synced connection, exactly the fire-and-forget commands' worth of replies is unread. */
    ghost predicate Valid()
      reads this
    {
      synced ==> connected && |unread| == owed && InOrder(unread, sent)
    }

    /** There is no connection yet, or a synced one without outstanding replies. */
    ghost predicate Settled()
      reads this
    {
      !connected || (synced && owed == 0)
    }

    constructor ()
      ensures Valid() && !connected
    {
      connected, unread, sent, synced, owed := false, [], 0, false, 0;
      last := Reply(ErrorValue, -1);
      commands, answers, breaks, late := [], [], 0, 0;
    }

    method Disconnect()
      modifies this`connected, this`unread, this`synced, this`owed
      ensures Valid() && !connected
    {
      connected, unread, synced, owed := false, [], false, 0;
    }

    /** Sends one command; the guest's reply, whenever it comes, is the next in the connection. */
    method Send(c: Command)
      requires connected
      modifies this`unread, this`sent, this`commands
      ensures commands == old(commands) + [c]
      ensures sent == old(sent) + 1 && |unread| == |old(unread)| + 1 && unread[..|old(unread)|] == old(unread)
      ensures Answers(c, unread[|old(unread)|].value) && unread[|old(unread)|].of == old(sent)
    {
      var v: Value := *;
      unread := unread + [Reply(if Answers(c, v) then v else ErrorValue, sent)];
      sent := sent + 1;
      commands := commands + [c];
    }

    /** `read`: the oldest unread reply, or a failure. */
    method Read() returns (r: Result)
      requires connected && unread != []
      modifies this`connected, this`unread, this`synced, this`owed, this`last, this`answers, this`breaks
      ensures r == Broken ==> breaks == old(breaks) + 1 && answers == old(answers)
      ensures r != Broken ==> breaks == old(breaks) && answers == old(answers) + [last]
      ensures r == Broken ==> Valid() && !synced
      ensures r != Broken ==>
                && connected && synced == old(synced) && owed == old(owed)
                && unread == old(unread)[1..] && last == old(unread)[0]
                && r == (if last.value == ErrorValue then ClientFailure else Answered(last.value))
    {
      var inTime: bool, intact: bool := *, *;
      breaks := breaks + if inTime && intact then 0 else 1;
      if !inTime {
        Disconnect();
        return Broken;
      }
      if !intact {
        synced := false;
        return Broken;
      }
      var reply := unread[0];
      last := reply;
      answers := answers + [reply];
      unread := unread[1..];
      r := if reply.value == ErrorValue then ClientFailure else Answered(reply.value);
    }

    /** `sync`: a gratuitous thaw, a drain of what arrives within a second, and a diagnostic call. If it
    succeeds although stale replies are left, one of them equalled the sync id. */
    method DoSync() returns (r: Result, ghost coincidence: bool)
      requires connected && !synced
      modifies this
      ensures Valid() && !synced
      ensures r != Sent
      ensures r.Answered? && !coincidence ==> connected && unread == []
      ensures r != Broken ==> connected
      ensures coincidence ==> r.Answered?
      ensures SyncSent(old(commands), commands) && old(breaks) <= breaks && (r == Broken ==> old(breaks) < breaks)
      ensures old(answers) <= answers
      ensures r.Answered? <==> breaks == old(breaks) && last.value == Number(commands[|old(commands)| + 1].id)
      ensures old(late) <= late
      ensures late == old(late) && r != Broken ==> unread == [] && last.of == sent - 1 && !coincidence
    {
      coincidence := false;
      Send(FsThaw);
      var arrived: int := *;
      unread := unread[if 0 <= arrived <= |unread| then arrived else |unread|..];
      ghost var stale := |unread| > 0;
      late := late + |unread|;
      var id: nat := *;
      Send(Sync(id));
      r := Read();
      if r.Answered? {
        if r.value == Number(id) {
          coincidence := stale;
        } else {
          r := ClientFailure;
        }
      }
    }

    /** `connect`: a connection that is set up is taken as it is, one whose sync failed included. */
    method Connect() returns (r: Result)
      requires Valid()
      modifies this
      ensures Valid()
      ensures r != Broken ==> connected
      ensures r == Sent || r == Broken || r == ClientFailure
      ensures r != Sent ==> !synced && !old(connected)
      ensures old(connected) ==>
                && r == Sent && unread == old(unread) && sent == old(sent)
                && synced == old(synced) && owed == old(owed)
      ensures !old(connected) && synced ==> owed == 0
      ensures old(connected) ==> commands == old(commands) && answers == old(answers) && breaks == old(breaks)
      ensures !old(connected) && connected ==> SyncSent(old(commands), commands)
      ensures old(commands) <= commands && old(answers) <= answers && old(breaks) <= breaks && (r == Broken ==> old(breaks) < breaks)
      ensures !old(connected) && breaks == old(breaks) ==> connected && (r == Sent <==> last.value == Number(commands[|old(commands)| + 1].id))
    {
      if connected { return Sent; }
      Disconnect();
      var reachable: bool := *;
      if !reachable {
        breaks := breaks + 1;
        return Broken;
      }
      unread := *;
      connected := true;
      ghost var coincidence: bool;
      r, coincidence := DoSync();
      if r.Answered? {
        synced, owed := !coincidence, 0;
        r := Sent;
      }
    }

    /** `cmd`. On a synced connection the reply it reads is the one to the command sent `owed` earlier: its
    own exactly if no fire-and-forget command is outstanding. */
    method Cmd(c: Command, fireAndForget: bool) returns (r: Result)
      requires Valid()
      modifies this
      ensures Valid()
      ensures r == Sent ==> fireAndForget
      ensures fireAndForget && old(connected) ==> r == Sent || r == Broken
      ensures r != Broken ==> connected
      ensures synced && old(connected) ==> old(synced)
      ensures old(synced) && r != Broken ==> synced
      ensures old(synced) && synced ==> sent == old(sent) + 1
      ensures synced && fireAndForget ==>
                && r == Sent && owed == Owed(old(connected), old(owed)) + 1
                && Answers(c, unread[owed - 1].value)
                && (old(connected) ==> unread[..owed - 1] == old(unread))
      ensures synced && !fireAndForget ==>
                && owed == Owed(old(connected), old(owed))
                && last.of == sent - 1 - owed
                && (owed == 0 ==> Answers(c, last.value))
                && (owed > 0 ==> last == old(unread)[0])
                && (owed > 0 ==> unread[..owed - 1] == old(unread)[1..] && Answers(c, unread[owed - 1].value))
                && r == (if last.value == ErrorValue then ClientFailure else Answered(last.value))
      ensures old(commands) <= commands && old(answers) <= answers && old(breaks) <= breaks && (r == Broken ==> old(breaks) < breaks)
      ensures r == Sent || r.Answered? ==> EndsWith(commands, [c])
      ensures old(connected) ==> old(commands) + [c] == commands || (r == Broken && commands == old(commands))
      ensures old(connected) && r != Broken ==> answers == old(answers) + if fireAndForget then [] else [last]
      ensures r.Answered? ==> last.value == r.value && last.value != ErrorValue
      ensures old(connected) && r == ClientFailure ==> last.value == ErrorValue
    {
      r := Connect();
      if r != Sent { return; }
      var accepted: bool := *;
      if !accepted {
        synced, breaks := false, breaks + 1;
        return Broken;
      }
      ghost var before := unread;
      Send(c);
      if fireAndForget {
        if synced { owed := owed + 1; }
        return;
      }
      assert before != [] ==> unread[0] == before[0];
      assert before != [] ==> unread[1..][..|before| - 1] == before[1..];
      r := Read();
    }

    /** Any calls on a synced connection, up to the first exception that is not a ClientError: the unread
    replies are as many as the fire-and-forget commands so far, and each other call reads the reply to the
    command that lies that many back. */
    method Session(calls: seq<Call>) returns (broken: bool, ghost read: seq<int>)
      requires Valid() && synced && owed == 0
      modifies this
      ensures Valid()
      ensures !broken ==>
                && synced && owed == Unanswered(calls) && |unread| == Unanswered(calls)
                && sent == old(sent) + |calls| && |read| == |calls|
                && forall i :: 0 <= i < |calls| && !calls[i].fireAndForget ==>
                     read[i] == old(sent) + i - Unanswered(calls[..i])
    {
      var done := 0;
      broken, read := false, [];
      while done < |calls|
        invariant 0 <= done <= |calls| && |read| == done
        invariant Valid() && synced && !broken
        invariant owed == Unanswered(calls[..done]) && sent == old(sent) + done
        invariant forall i :: 0 <= i < done && !calls[i].fireAndForget ==>
                    read[i] == old(sent) + i - Unanswered(calls[..i])
      {
        var r := Cmd(calls[done].command, calls[done].fireAndForget);
        if r == Broken { return true, read; }
        assert calls[..done + 1][..done] == calls[..done];
        read := read + [last.of];
        done := done + 1;
      }
      assert calls[..done] == calls;
    }

    /** `freeze`; `true` is a normal return. From a settled connection, a freeze command that was answered by
    an error is never reported as frozen, because the status it compares is the answer to the emergency
    thaw, whose reply stays outstanding; and a freeze is reported exactly if the command was not answered by an
    error and the guest then said of itself that it is frozen. An error brings the guest an emergency thaw. */
    method Freeze() returns (frozen: bool, ghost errored: bool)
      requires Valid()
      modifies this
      ensures Valid()
      ensures old(Settled()) && synced ==> owed == if errored then 1 else 0
      ensures old(Settled()) && synced && errored ==> !frozen
      ensures old(Settled()) && synced && frozen ==> last == Reply(Frozen, sent - 1)
      ensures old(Settled()) && synced ==> (frozen <==> !errored && last == Reply(Frozen, sent - 1))
      ensures old(connected) && breaks == old(breaks) ==>
                && commands == old(commands) + (if errored then [FsFreeze, FsThaw, FsStatus] else [FsFreeze, FsStatus])
                && |answers| > |old(answers)| && (errored <==> answers[|old(answers)|].value == ErrorValue)
      ensures frozen && !errored ==> EndsWith(commands, [FsFreeze, FsStatus])
    {
      frozen, errored := false, false;
      var r := Cmd(FsFreeze, false);
      if r == Broken { return; }
      if r == ClientFailure {
        errored := true;
        r := Cmd(FsThaw, true);
        if r != Sent { return; }
      }
      r := Cmd(FsStatus, false);
      frozen := r == Answered(Frozen);
    }

    /** `thaw`; `true` is a normal return. After a freeze that errored, it fails whatever the guest did,
    because its status is the answer to its own thaw; a failure leaves a new connection, if any. On a connection
    that holds it is reported exactly if the guest answered the thaw, and then that it is thawed; otherwise
    another thaw has been sent on the new connection. */
    method Thaw() returns (thawed: bool)
      requires Valid()
      modifies this
      ensures Valid()
      ensures old(Settled()) && synced && thawed ==> last == Reply(Thawed, sent - 1)
      ensures old(synced && owed == 1) ==> !thawed
      ensures !thawed && synced ==> owed == 0
      ensures thawed ==> EndsWith(commands, [FsThaw, FsStatus])
      ensures old(connected) && breaks == old(breaks) ==>
                && |answers| > |old(answers)| && old(commands) + [FsThaw] <= commands
                && (thawed <==> answers[|old(answers)|].value != ErrorValue && |answers| > |old(answers)| + 1
                                && answers[|old(answers)| + 1].value == Thawed)
      ensures !thawed && connected ==> exists before :: SyncSent(before, commands)
    {
      var r := Cmd(FsThaw, false);
      if r.Answered? {
        r := Cmd(FsStatus, false);
        if r == Answered(Thawed) { return true; }
      }
      Disconnect();
      ghost var before := commands;
      r := Connect();
      assert connected ==> SyncSent(before, commands);
      thawed := false;
    }
  }
}
