/** The Controller class of the picomotor driver. Its channel is a log of the commands
    written to the OUT endpoint and the queue of replies the IN endpoint will deliver;
    every operation validates its arguments, writes at most one command (the motion and
    scan operations then poll a status query), reads a reply when it asks for one, and
    converts the cleaned reply. Each method's outcome and its new channel are those of
    the Link function for the same steps. */
module Picomotor {

  import opened Errors
  import opened Text
  import opened Protocol
  import opened Link

  class Controller {
    /** The COMMANDS table the controller formats its commands from. */
    const commands: Table
    /** Every command written to the OUT endpoint, oldest first. */
    var written: seq<string>
    /** The replies the IN endpoint has yet to deliver, one per read. */
    var replies: seq<seq<byte>>

    ghost predicate Valid() {
      CompleteTable(commands)
    }

    /** The channel as a value. */
    function Snapshot(): Channel
      reads this
    {
      Channel(written, replies)
    }

    /** The channel and the result are those of the step `s`. */
    ghost predicate Did<T>(s: Step<T>, r: Result<T>)
      reads this
    {
      Snapshot() == s.ch && r == s.out
    }

    /** A controller on a ready channel whose IN endpoint will deliver `script`. */
    constructor (table: Table, script: seq<seq<byte>>)
      requires CompleteTable(table)
      ensures Valid()
      ensures commands == table && written == [] && replies == script
    {
      commands := table;
      written := [];
      replies := script;
    }

    /** send_command: the command is written; with getReply one read follows, which
        fails with a TransportError when no reply is left. */
    method SendCommand(cmd: string, getReply: bool) returns (r: Result<Option<seq<byte>>>)
      modifies this
      ensures written == old(written) + [cmd]
      ensures !getReply ==> r == Ok(None) && replies == old(replies)
      ensures getReply && old(replies) == [] ==> r == Err(TransportError) && replies == old(replies)
      ensures getReply && old(replies) != [] ==>
                r == Ok(Some(Read(old(replies)[0]))) && replies == old(replies)[1..]
    {
      written := written + [cmd];
      if !getReply {
        return Ok(None);
      }
      if replies == [] {
        return Err(TransportError);
      }
      r := Ok(Some(Read(replies[0])));
      replies := replies[1..];
    }

    /** The common tail of every query: send with a reply, then parse_reply. */
    method Ask(cmd: string) returns (r: Result<string>)
      modifies this
      ensures Did(Query(old(Snapshot()), Ok(cmd), s => Ok(s)), r)
    {
      var raw :- SendCommand(cmd, true);
      r := Ok(ParseReply(raw.value));
    }

    /** get_id */
    method GetId(addr: int) returns (r: Result<string>)
      requires Valid()
      modifies this
      ensures Did(Query(old(Snapshot()), FormatCommand(commands, commands["id_string"], addr, None, None), s => Ok(s)), r)
    {
      var cmd :- FormatCommand(commands, commands["id_string"], addr, None, None);
      r := Ask(cmd);
    }

    /** get_firmware_version */
    method GetFirmwareVersion() returns (r: Result<string>)
      requires Valid()
      modifies this
      ensures Did(Query(old(Snapshot()), FormatCommand(commands, commands["query_firmware"], 1, None, None), s => Ok(s)), r)
    {
      var cmd :- FormatCommand(commands, commands["query_firmware"], 1, None, None);
      r := Ask(cmd);
    }

    /** set_velocity */
    method SetVelocity(addr: int, axis: int, val: int) returns (r: Result<()>)
      requires Valid()
      modifies this
      ensures Did(Write(old(Snapshot()), SetVelocityCommand(commands, addr, axis, val)), r)
    {
      var cmd :- SetVelocityCommand(commands, addr, axis, val);
      var _ := SendCommand(cmd, false);
      r := Ok(());
    }

    /** get_velocity */
    method GetVelocity(addr: int, axis: int) returns (r: Result<int>)
      requires Valid()
      modifies this
      ensures Did(Query(old(Snapshot()), AxisCommand(commands, "query_velocity", addr, axis, None), DecodeInt), r)
    {
      var cmd :- AxisCommand(commands, "query_velocity", addr, axis, None);
      var reply :- Ask(cmd);
      r := DecodeInt(reply);
    }

    /** set_acceleration */
    method SetAcceleration(addr: int, axis: int, val: int) returns (r: Result<()>)
      requires Valid()
      modifies this
      ensures Did(Write(old(Snapshot()), SetAccelerationCommand(commands, addr, axis, val)), r)
    {
      var cmd :- SetAccelerationCommand(commands, addr, axis, val);
      var _ := SendCommand(cmd, false);
      r := Ok(());
    }

    /** get_acceleration: only format_command's checks, so an axis of 0 is left out. */
    method GetAcceleration(addr: int, axis: int) returns (r: Result<int>)
      requires Valid()
      modifies this
      ensures Did(Query(old(Snapshot()), FormatCommand(commands, commands["query_accel"], addr, Some(axis), None), DecodeInt), r)
    {
      var cmd :- FormatCommand(commands, commands["query_accel"], addr, Some(axis), None);
      var reply :- Ask(cmd);
      r := DecodeInt(reply);
    }

    /** get_position */
    method GetPosition(addr: int, axis: int) returns (r: Result<int>)
      requires Valid()
      modifies this
      ensures Did(Query(old(Snapshot()), AxisCommand(commands, "query_pos", addr, axis, None), DecodeInt), r)
    {
      var cmd :- AxisCommand(commands, "query_pos", addr, axis, None);
      var reply :- Ask(cmd);
      r := DecodeInt(reply);
    }

    /** set_home */
    method SetHome(addr: int, axis: int, val: Option<int>) returns (r: Result<()>)
      requires Valid()
      modifies this
      ensures Did(Write(old(Snapshot()), SetHomeCommand(commands, addr, axis, val)), r)
    {
      var cmd :- SetHomeCommand(commands, addr, axis, val);
      var _ := SendCommand(cmd, false);
      r := Ok(());
    }

    /** get_home: the cleaned reply itself. */
    method GetHome(addr: int, axis: int) returns (r: Result<string>)
      requires Valid()
      modifies this
      ensures Did(Query(old(Snapshot()), FormatCommand(commands, commands["query_home"], addr, Some(axis), None), s => Ok(s)), r)
    {
      var cmd :- FormatCommand(commands, commands["query_home"], addr, Some(axis), None);
      r := Ask(cmd);
    }

    /** finished_moving */
    method FinishedMoving(addr: int, axis: int) returns (r: Result<bool>)
      requires Valid()
      modifies this
      ensures Did(Query(old(Snapshot()), MotionDoneCommand(commands, addr, axis), DecodeDone), r)
    {
      var cmd :- MotionDoneCommand(commands, addr, axis);
      var reply :- Ask(cmd);
      r := DecodeDone(reply);
    }

    /** move_indefinitely */
    method MoveIndefinitely(addr: int, axis: int, direction: string) returns (r: Result<()>)
      requires Valid()
      modifies this
      ensures Did(Write(old(Snapshot()), MoveIndefinitelyCommand(commands, addr, axis, direction)), r)
    {
      var cmd :- MoveIndefinitelyCommand(commands, addr, axis, direction);
      var _ := SendCommand(cmd, false);
      r := Ok(());
    }

    /** move_to_target: the move, then finished_moving until it answers true. */
    method MoveToTarget(addr: int, axis: int, target: int) returns (r: Result<()>)
      requires Valid()
      modifies this
      ensures Did(CommandThenPoll(old(Snapshot()),
                                  AxisCommand(commands, "move_to_target_pos", addr, axis, Some(Int(target))),
                                  MotionDoneCommand(commands, addr, axis)), r)
    {
      var cmd :- AxisCommand(commands, "move_to_target_pos", addr, axis, Some(Int(target)));
      var _ := SendCommand(cmd, false);
      r := WaitForMotion(addr, axis);
    }

    /** get_target */
    method GetTarget(addr: int, axis: int) returns (r: Result<int>)
      requires Valid()
      modifies this
      ensures Did(Query(old(Snapshot()), FormatCommand(commands, commands["query_target_pos"], addr, Some(axis), None), DecodeInt), r)
    {
      var cmd :- FormatCommand(commands, commands["query_target_pos"], addr, Some(axis), None);
      var reply :- Ask(cmd);
      r := DecodeInt(reply);
    }

    /** move_relative: the move, then finished_moving until it answers true. */
    method MoveRelative(addr: int, axis: int, steps: int) returns (r: Result<()>)
      requires Valid()
      modifies this
      ensures Did(CommandThenPoll(old(Snapshot()),
                                  AxisCommand(commands, "move_relative", addr, axis, Some(Int(steps))),
                                  MotionDoneCommand(commands, addr, axis)), r)
    {
      var cmd :- AxisCommand(commands, "move_relative", addr, axis, Some(Int(steps)));
      var _ := SendCommand(cmd, false);
      r := WaitForMotion(addr, axis);
    }

    /** `while not self.finished_moving(addr, axis): pass` */
    method WaitForMotion(addr: int, axis: int) returns (r: Result<()>)
      requires Valid()
      modifies this
      ensures Did(Poll(old(Snapshot()), MotionDoneCommand(commands, addr, axis)), r)
    {
      ghost var start := Snapshot();
      var done := false;
      while !done
        invariant !done ==> Poll(Snapshot(), MotionDoneCommand(commands, addr, axis))
                            == Poll(start, MotionDoneCommand(commands, addr, axis))
        invariant done ==> Poll(start, MotionDoneCommand(commands, addr, axis)) == Step(Snapshot(), Ok(()))
        decreases |replies|, !done
      {
        done :- FinishedMoving(addr, axis);
      }
      r := Ok(());
    }

    /** get_relative_target: the cleaned reply itself. */
    method GetRelativeTarget(addr: int, axis: int) returns (r: Result<string>)
      requires Valid()
      modifies this
      ensures Did(Query(old(Snapshot()), FormatCommand(commands, commands["query_target_rel"], addr, Some(axis), None), s => Ok(s)), r)
    {
      var cmd :- FormatCommand(commands, commands["query_target_rel"], addr, Some(axis), None);
      r := Ask(cmd);
    }

    /** detect_motors */
    method DetectMotors(addr: int) returns (r: Result<()>)
      requires Valid()
      modifies this
      ensures Did(Write(old(Snapshot()), AddressCommand(commands, "motor_check", addr)), r)
    {
      var cmd :- AddressCommand(commands, "motor_check", addr);
      var _ := SendCommand(cmd, false);
      r := Ok(());
    }

    /** set_motor_type */
    method SetMotorType(addr: int, axis: int, val: int) returns (r: Result<()>)
      requires Valid()
      modifies this
      ensures Did(Write(old(Snapshot()), SetMotorTypeCommand(commands, addr, axis, val)), r)
    {
      var cmd :- SetMotorTypeCommand(commands, addr, axis, val);
      var _ := SendCommand(cmd, false);
      r := Ok(());
    }

    /** get_motor_type */
    method GetMotorType(addr: int, axis: int) returns (r: Result<string>)
      requires Valid()
      modifies this
      ensures Did(Query(old(Snapshot()), FormatCommand(commands, commands["query_motor_type"], addr, Some(axis), None), DecodeMotorType), r)
    {
      var cmd :- FormatCommand(commands, commands["query_motor_type"], addr, Some(axis), None);
      var reply :- Ask(cmd);
      r := DecodeMotorType(reply);
    }

    /** set_address */
    method SetAddress(addr: int, val: int) returns (r: Result<()>)
      requires Valid()
      modifies this
      ensures Did(Write(old(Snapshot()), SetAddressCommand(commands, addr, val)), r)
    {
      var cmd :- SetAddressCommand(commands, addr, val);
      var _ := SendCommand(cmd, false);
      r := Ok(());
    }

    /** get_address */
    method GetAddress(addr: int) returns (r: Result<int>)
      requires Valid()
      modifies this
      ensures Did(Query(old(Snapshot()), AddressCommand(commands, "query_address", addr), DecodeInt), r)
    {
      var cmd :- AddressCommand(commands, "query_address", addr);
      var reply :- Ask(cmd);
      r := DecodeInt(reply);
    }

    /** scan: the scan command, then is_scan_done until it answers true. */
    method Scan(mode: int) returns (r: Result<()>)
      requires Valid()
      modifies this
      ensures Did(CommandThenPoll(old(Snapshot()), ScanCommand(commands, mode), ScanDoneCommand(commands)), r)
    {
      var cmd :- ScanCommand(commands, mode);
      var _ := SendCommand(cmd, false);
      ghost var start := Snapshot();
      var done := false;
      while !done
        invariant !done ==> Poll(Snapshot(), ScanDoneCommand(commands)) == Poll(start, ScanDoneCommand(commands))
        invariant done ==> Poll(start, ScanDoneCommand(commands)) == Step(Snapshot(), Ok(()))
        decreases |replies|, !done
      {
        done :- IsScanDone();
      }
      r := Ok(());
    }

    /** is_scan_done */
    method IsScanDone() returns (r: Result<bool>)
      requires Valid()
      modifies this
      ensures Did(Query(old(Snapshot()), ScanDoneCommand(commands), DecodeDone), r)
    {
      var cmd := ScanDoneCommand(commands).value;
      var reply :- Ask(cmd);
      r := DecodeDone(reply);
    }

    /** get_controller_address_map */
    method GetControllerAddressMap() returns (r: Result<seq<int>>)
      requires Valid()
      modifies this
      ensures Did(Query(old(Snapshot()), FormatCommand(commands, commands["query_RS485_addr"], 1, None, None), DecodeAddressMap), r)
    {
      var cmd :- FormatCommand(commands, commands["query_RS485_addr"], 1, None, None);
      var reply :- Ask(cmd);
      r := DecodeAddressMap(reply);
    }

    /** save_settings */
    method SaveSettings() returns (r: Result<()>)
      requires Valid()
      modifies this
      ensures Did(Write(old(Snapshot()), FormatCommand(commands, commands["save"], 1, None, None)), r)
    {
      var cmd :- FormatCommand(commands, commands["save"], 1, None, None);
      var _ := SendCommand(cmd, false);
      r := Ok(());
    }

    /** stop_motion */
    method StopMotion(addr: int, axis: int) returns (r: Result<()>)
      requires Valid()
      modifies this
      ensures Did(Write(old(Snapshot()), AxisCommand(commands, "stop", addr, axis, None)), r)
    {
      var cmd :- AxisCommand(commands, "stop", addr, axis, None);
      var _ := SendCommand(cmd, false);
      r := Ok(());
    }

    /** get_latest_error_msg */
    method GetLatestErrorMsg() returns (r: Result<string>)
      requires Valid()
      modifies this
      ensures Did(Query(old(Snapshot()), FormatCommand(commands, commands["query_error_msg"], 1, None, None), s => Ok(s)), r)
    {
      var cmd :- FormatCommand(commands, commands["query_error_msg"], 1, None, None);
      r := Ask(cmd);
    }

    /** get_latest_error_code */
    method GetLatestErrorCode() returns (r: Result<string>)
      requires Valid()
      modifies this
      ensures Did(Query(old(Snapshot()), FormatCommand(commands, commands["query_error_nr"], 1, None, None), s => Ok(s)), r)
    {
      var cmd :- FormatCommand(commands, commands["query_error_nr"], 1, None, None);
      r := Ask(cmd);
    }

    /** purge_all_settings */
    method PurgeAllSettings() returns (r: Result<()>)
      requires Valid()
      modifies this
      ensures Did(Write(old(Snapshot()), FormatCommand(commands, commands["purge_memory"], 1, None, None)), r)
    {
      var cmd :- FormatCommand(commands, commands["purge_memory"], 1, None, None);
      var _ := SendCommand(cmd, false);
      r := Ok(());
    }
  }
  /** The reply "1>500\r" to get_velocity(1, 2) is the velocity 500. */
  lemma GetVelocityExample(t: Table, ch: Channel)
    requires CompleteTable(t)
    requires ch.replies == [[49, 62, 53, 48, 48, 13]]
    ensures Query(ch, AxisCommand(t, "query_velocity", 1, 2, None), DecodeInt)
            == Step(Channel(ch.written + [Wire(1, Some(2), t["query_velocity"], None)], []), Ok(500))
  {
    var raw: seq<byte> := [49, 62, 53, 48, 48, 13];
    assert Read(raw) == raw;
    assert DecodeBytes(raw) == "1>500\r";
    assert RStrip("1>500\r") == "1>500";
    assert ParseReply(raw) == "500";
    assert DigitsValue("500") == 500 by {
      assert "500"[..2] == "50" && "50"[..1] == "5";
    }
  }

  /** A status reply "1>0\r" says "not done" and "1>1\r" says "done". */
  lemma StatusReplies()
    ensures ReplyDone([49, 62, 48, 13]) == Ok(false)
    ensures ReplyDone([49, 62, 49, 13]) == Ok(true)
  {
    assert DecodeBytes([49, 62, 48, 13]) == "1>0\r";
    assert RStrip("1>0\r") == "1>0";
    assert DecodeBytes([49, 62, 49, 13]) == "1>1\r";
    assert RStrip("1>1\r") == "1>1";
  }

  /** move_to_target(1, 1, 500) against three "not done" replies and then a "done" one
      (such as "1>0\r" and "1>1\r"): the move and exactly four status queries are
      written, and every reply is used. */
  lemma MoveToTargetExample(t: Table, written: seq<string>, notDone: seq<byte>, done: seq<byte>)
    requires CompleteTable(t)
    requires ReplyDone(notDone) == Ok(false) && ReplyDone(done) == Ok(true)
    ensures var ch := Channel(written, [notDone, notDone, notDone, done]);
            var status := Wire(1, Some(1), t["query_motion_done"], None);
            CommandThenPoll(ch, AxisCommand(t, "move_to_target_pos", 1, 1, Some(Int(500))), MotionDoneCommand(t, 1, 1))
            == Step(Channel(written + [Wire(1, Some(1), t["move_to_target_pos"], Some(Int(500)))]
                            + [status, status, status, status], []), Ok(()))
  {
    var moved := Channel(written + [Wire(1, Some(1), t["move_to_target_pos"], Some(Int(500)))],
                         [notDone, notDone, notDone, done]);
    PollThreeThenDone(moved, Wire(1, Some(1), t["query_motion_done"], None), notDone, done);
  }

  /** scan with a conflict-resolution mode outside 0..2 writes nothing and reads nothing. */
  lemma ScanRefused(t: Table, ch: Channel, mode: int)
    requires CompleteTable(t)
    requires !(0 <= mode <= 2)
    ensures CommandThenPoll(ch, ScanCommand(t, mode), ScanDoneCommand(t))
            == Step(ch, Err(ValueError(ConflictResolutionMsg)))
  {
    CommandThenPollRefused(ch, ScanCommand(t, mode), ScanDoneCommand(t));
  }
}
