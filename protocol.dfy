/** The command protocol of the picomotor controller: the command table, the checks
    on mnemonic, address and axis, the ASCII command builder, the reply cleaner, the
    per-operation validation that runs before anything is sent, and the conversions
    of a cleaned reply into an int, a bool, a motor-type label or an address map. */
module Protocol {

  import opened Errors
  import opened Text
  import Bits

  /** The COMMANDS table: operation name to firmware mnemonic. Its contents are
      firmware constants that this model does not fix; only the names are known. */
  type Table = map<string, string>

  /** Every operation name the driver looks up in the table. */
  const Keys: set<string> := {
    "id_string", "query_firmware", "set_velocity", "query_velocity", "set_accel",
    "query_accel", "query_pos", "define_home", "query_home", "query_motion_done",
    "move_indefinitely", "move_to_target_pos", "query_target_pos", "move_relative",
    "query_target_rel", "motor_check", "set_motor_type", "query_motor_type",
    "set_address", "query_address", "scan_RS485", "query_scan_status",
    "query_RS485_addr", "save", "stop", "query_error_msg", "query_error_nr",
    "purge_memory"
  }

  /** A table the driver can run against: every name it looks up is present. */
  predicate CompleteTable(t: Table) {
    Keys <= t.Keys
  }

  /** MOTOR_TYPE: the motor-type code, as the reply's last character, to its label. */
  const MotorTypes: map<string, string> := map[
    "0" := "No motor connected",
    "1" := "Motor Unknown",
    "2" := "'Tiny' Motor",
    "3" := "'Standard' Motor"
  ]

  /** The optional value of a command: an integer, or the direction text '+' / '-'. */
  datatype Value = Int(n: int) | Str(s: string)

  /** f'{val}' */
  function ValueText(v: Value): string {
    match v
    case Int(n) => IntToString(n)
    case Str(s) => s
  }

  predicate ValidAddress(addr: int) {
    addr == 1 || addr == 2
  }

  predicate ValidAxis(axis: int) {
    1 <= axis <= 4
  }

  /** Python's `if axis:` - an absent axis and an axis of 0 are both false. */
  predicate Truthy(axis: Option<int>) {
    axis.Some? && axis.value != 0
  }

  /** A check that raises ValueError(message) when the condition fails. */
  function Check(condition: bool, message: string): (r: Result<()>)
    ensures r.Ok? <==> condition
    ensures r.Err? ==> r.error == ValueError(message)
  {
    if condition then Ok(()) else Err(ValueError(message))
  }

  /** verify_command */
  function VerifyCommand(t: Table, mnemonic: string): (r: Result<()>)
    ensures r.Ok? <==> exists k :: k in t && t[k] == mnemonic
    ensures r.Err? ==> r.error == ValueError(InvalidCommandMsg)
  {
    Check(mnemonic in t.Values, InvalidCommandMsg)
  }

  /** verify_address_value */
  function VerifyAddress(addr: int): (r: Result<()>)
    ensures r.Ok? <==> addr == 1 || addr == 2
    ensures r.Err? ==> r.error == ValueError(InvalidAddressMsg)
  {
    Check(ValidAddress(addr), InvalidAddressMsg)
  }

  /** verify_axis_value (the type(axis) == int test is implied by the Dafny type) */
  function VerifyAxis(axis: int): (r: Result<()>)
    ensures r.Ok? <==> 1 <= axis <= 4
    ensures r.Err? ==> r.error == ValueError(InvalidAxisMsg)
  {
    Check(ValidAxis(axis), InvalidAxisMsg)
  }

  /** The wire form of a command, "{addr}>[{axis}]{mnemonic}[{value}]\r". */
  function Wire(addr: int, axis: Option<int>, mnemonic: string, val: Option<Value>): string {
    IntToString(addr) + ">" + (if axis.Some? then IntToString(axis.value) else "")
    + mnemonic + (if val.Some? then ValueText(val.value) else "") + "\r"
  }

  /** format_command: three checks in order, then the command text. A falsy axis
      (absent or 0) is left out of the command and is not checked. */
  function FormatCommand(t: Table, mnemonic: string, addr: int, axis: Option<int>, val: Option<Value>): (r: Result<string>)
    ensures mnemonic !in t.Values ==> r == Err(ValueError(InvalidCommandMsg))
    ensures mnemonic in t.Values && !ValidAddress(addr) ==> r == Err(ValueError(InvalidAddressMsg))
    ensures mnemonic in t.Values && ValidAddress(addr) && Truthy(axis) && !ValidAxis(axis.value)
            ==> r == Err(ValueError(InvalidAxisMsg))
    ensures r.Ok? <==> mnemonic in t.Values && ValidAddress(addr) && (Truthy(axis) ==> ValidAxis(axis.value))
    ensures r.Ok? ==> r.value == Wire(addr, if Truthy(axis) then axis else None, mnemonic, val)
  {
    var _ :- VerifyCommand(t, mnemonic);
    var _ :- VerifyAddress(addr);
    var cmd :-
      if Truthy(axis) then
        var _ :- VerifyAxis(axis.value);
        Ok(IntToString(addr) + ">" + IntToString(axis.value) + mnemonic)
      else
        Ok(IntToString(addr) + ">" + mnemonic);
    if val.Some? then Ok(cmd + ValueText(val.value) + "\r") else Ok(cmd + "\r")
  }

  /** Where the fields of a validated command sit: the address digit, '>', the axis
      digit when there is one, the mnemonic, the value text, and one final '\r';
      an integer value reads back with int(). */
  lemma WireLayout(addr: int, axis: Option<int>, mnemonic: string, val: Option<Value>)
    requires ValidAddress(addr)
    requires axis.Some? ==> ValidAxis(axis.value)
    ensures var w := Wire(addr, axis, mnemonic, val);
            var k := if axis.Some? then 3 else 2;
            var text := if val.Some? then ValueText(val.value) else "";
            && |w| == k + |mnemonic| + |text| + 1
            && w[0] == DigitChar(addr) && w[1] == '>'
            && (axis.Some? ==> w[2] == DigitChar(axis.value))
            && w[k..k + |mnemonic|] == mnemonic
            && w[k + |mnemonic|..|w| - 1] == text
            && w[|w| - 1] == '\r'
            && (val.Some? && val.value.Int? ==> ParseInt(w[k + |mnemonic|..|w| - 1]) == Some(val.value.n))
  {
    var k := if axis.Some? then 3 else 2;
    var text := if val.Some? then ValueText(val.value) else "";
    var x := if axis.Some? then IntToString(axis.value) else "";
    var head := IntToString(addr) + ">" + x;
    assert |head| == k && head[0] == DigitChar(addr) && head[1] == '>'
           && (axis.Some? ==> head[2] == DigitChar(axis.value)) by {
      assert IntToString(addr) == [DigitChar(addr)];
      assert axis.Some? ==> x == [DigitChar(axis.value)];
    }
    assert Wire(addr, axis, mnemonic, val) == head + mnemonic + text + "\r";
    FieldsOf(head, mnemonic, text, "\r");
    if val.Some? && val.value.Int? {
      IntRoundTrip(val.value.n);
    }
  }

  /** The middle fields of a concatenation sit where their lengths say. */
  lemma FieldsOf(a: string, b: string, c: string, d: string)
    ensures var w := a + b + c + d;
            && w[|a|..|a| + |b|] == b
            && w[|a| + |b|..|a| + |b| + |c|] == c
            && w[..|a|] == a
            && w[|a| + |b| + |c|..] == d
  {
    var w := a + b + c + d;
    assert w == a + (b + (c + d));
    assert w[|a|..] == b + (c + d);
    assert w[|a| + |b|..] == c + d;
  }

  /** parse_reply: bytes to characters, trailing whitespace stripped, the two-character
      address echo dropped. */
  function ParseReply(raw: seq<byte>): string {
    var stripped := RStrip(DecodeBytes(raw));
    if |stripped| <= 2 then "" else stripped[2..]
  }

  /** The cleaned reply is the stripped reply less its first two characters, and ""
      when two or fewer remain (no error is raised); its characters are the reply's
      bytes from offset 2 on; it does not end in whitespace, and everything of the
      reply after it is whitespace. */
  lemma ParseReplySpec(raw: seq<byte>)
    ensures var r := ParseReply(raw);
            var stripped := RStrip(DecodeBytes(raw));
            && |r| == (if |stripped| > 2 then |stripped| - 2 else 0)
            && (forall i :: 0 <= i < |r| ==> r[i] == Chr(raw[i + 2]))
            && (r == [] || !IsSpace(r[|r| - 1]))
            && (r != [] ==> forall i :: |r| + 2 <= i < |raw| ==> IsSpace(Chr(raw[i])))
  {
    var d := DecodeBytes(raw);
    RStripSpec(d);
    var stripped := RStrip(d);
    var r := ParseReply(raw);
    forall i | 0 <= i < |r| ensures r[i] == Chr(raw[i + 2]) {
      assert r[i] == stripped[i + 2] == d[i + 2];
    }
    if r != [] {
      assert r[|r| - 1] == stripped[|stripped| - 1];
      forall i | |r| + 2 <= i < |raw| ensures IsSpace(Chr(raw[i])) {
        assert d[i] == Chr(raw[i]);
      }
    }
  }

  /** The bytes of "1>XYZ\r\n" clean to "XYZ". */
  lemma ParseReplyExample()
    ensures ParseReply([49, 62, 88, 89, 90, 13, 10]) == "XYZ"
  {
    var raw: seq<byte> := [49, 62, 88, 89, 90, 13, 10];
    var d := DecodeBytes(raw);
    assert d == "1>XYZ\r\n";
    assert RStrip(d) == RStrip("1>XYZ\r") == "1>XYZ";
  }

  /** int(reply) */
  function DecodeInt(reply: string): (r: Result<int>)
    ensures r.Ok? <==> ParseInt(reply).Some?
    ensures r.Ok? ==> r.value == ParseInt(reply).value
    ensures r.Err? ==> r.error == ValueError(InvalidLiteralMsg)
  {
    match ParseInt(reply)
    case Some(n) => Ok(n)
    case None => Err(ValueError(InvalidLiteralMsg))
  }

  /** Signed and zero-padded replies convert; a reply with a stray letter is refused. */
  lemma DecodeIntExamples()
    ensures DecodeInt("+7") == Ok(7)
    ensures DecodeInt("-007") == Ok(-7)
    ensures DecodeInt("1a2") == Err(ValueError(InvalidLiteralMsg))
  {
    ParseIntSpec("+7");
    ParseIntSpec("-007");
    assert DigitsValue("007") == 7 by {
      assert "007"[..2] == "00" && "00"[..1] == "0";
    }
    assert !IsDigit("1a2"[1]);
    ParseIntSpec("1a2");
  }

  /** reply[-1] */
  function LastChar(reply: string): (r: Result<char>)
    ensures r.Ok? <==> reply != []
    ensures r.Ok? ==> r.value == reply[|reply| - 1]
    ensures r.Err? ==> r.error == IndexError
  {
    if reply == [] then Err(IndexError) else Ok(reply[|reply| - 1])
  }

  /** reply[-1] == '1', as finished_moving and is_scan_done decide "done". */
  function DecodeDone(reply: string): (r: Result<bool>)
    ensures r.Ok? <==> reply != []
    ensures r.Ok? ==> (r.value <==> reply[|reply| - 1] == '1')
    ensures r.Err? ==> r.error == IndexError
  {
    var c :- LastChar(reply);
    Ok(c == '1')
  }

  /** MOTOR_TYPE[reply[-1]] */
  function DecodeMotorType(reply: string): (r: Result<string>)
    ensures reply == [] ==> r == Err(IndexError)
    ensures reply != [] && reply[|reply| - 1] == '0' ==> r == Ok("No motor connected")
    ensures reply != [] && reply[|reply| - 1] == '1' ==> r == Ok("Motor Unknown")
    ensures reply != [] && reply[|reply| - 1] == '2' ==> r == Ok("'Tiny' Motor")
    ensures reply != [] && reply[|reply| - 1] == '3' ==> r == Ok("'Standard' Motor")
    ensures reply != [] && !('0' <= reply[|reply| - 1] <= '3') ==> r == Err(KeyError)
  {
    var c :- LastChar(reply);
    if [c] in MotorTypes then Ok(MotorTypes[[c]]) else Err(KeyError)
  }

  /** get_controller_address_map's conversion: int(reply), its binary digits, reversed. */
  function DecodeAddressMap(reply: string): (r: Result<seq<int>>)
    ensures r.Ok? <==> ParseInt(reply).Some? && ParseInt(reply).value >= 0
    ensures r.Ok? ==> |r.value| >= 1 && forall i :: 0 <= i < |r.value| ==> r.value[i] == 0 || r.value[i] == 1
    ensures r.Err? ==> r.error == ValueError(InvalidLiteralMsg)
  {
    var n :- DecodeInt(reply);
    Bits.BinaryAddressMap(n)
  }

  /** A reply holding n >= 0 gives the bits of n with bit i at index i; index 0 is the
      conflict flag and index i > 0 says whether address i is occupied. The map is the
      shortest such list: its last entry is 1 unless n == 0, and it reads back to n. */
  lemma AddressMapOfReply(reply: string, n: int)
    requires ParseInt(reply) == Some(n) && n >= 0
    ensures DecodeAddressMap(reply).Ok?
    ensures var m := DecodeAddressMap(reply).value;
            && |m| >= 1
            && (forall i :: 0 <= i < |m| ==> m[i] == (n / Bits.Pow2(i)) % 2)
            && (n > 0 ==> m[|m| - 1] == 1)
            && Bits.FromBits(m) == n
            && n < Bits.Pow2(|m|)
  {
    var m := Bits.LsbBits(n);
    assert DecodeAddressMap(reply) == Ok(m) by {
      assert DecodeInt(reply) == Ok(n);
      Bits.BinaryAddressMapIsLsbBits(n);
    }
    Bits.LsbBitsRepresent(n);
    Bits.LsbBitsAreBits(n);
  }

  /** A negative number or a non-number in the reply raises a ValueError. */
  lemma AddressMapOfBadReply(reply: string)
    requires ParseInt(reply).None? || ParseInt(reply).value < 0
    ensures DecodeAddressMap(reply) == Err(ValueError(InvalidLiteralMsg))
  {
    if ParseInt(reply).Some? {
      Bits.BinaryAddressMapOfNegative(ParseInt(reply).value);
    }
  }

  /** The reply "5" (addresses 2 and the conflict flag) gives [1, 0, 1]. */
  lemma AddressMapOfFive()
    ensures DecodeAddressMap("5") == Ok([1, 0, 1])
  {
    DigitReply("5", 5);
    Bits.SmallBitLists();
  }

  /** The reply "6" (addresses 1 and 2 occupied, no conflict) gives [0, 1, 1]. */
  lemma AddressMapOfSix()
    ensures DecodeAddressMap("6") == Ok([0, 1, 1])
  {
    DigitReply("6", 6);
    Bits.SmallBitLists();
  }

  /** The reply "0" gives [0]. */
  lemma AddressMapOfZero()
    ensures DecodeAddressMap("0") == Ok([0])
  {
    DigitReply("0", 0);
  }

  /** A one-digit reply gives the bit list of its digit. */
  lemma DigitReply(reply: string, n: nat)
    requires n < 10 && reply == [DigitChar(n)]
    ensures DecodeAddressMap(reply) == Ok(Bits.LsbBits(n))
  {
    assert AllDigits(reply);
    assert DigitsValue(reply) == n by {
      assert reply[..0] == [];
    }
    Bits.BinaryAddressMapIsLsbBits(n);
  }

  // ---- The validation each operation performs before it sends anything ----

  /** Address, then axis, both strictly checked, then format_command with the axis:
      get_velocity, get_position, stop_motion, move_to_target and move_relative. */
  function AxisCommand(t: Table, key: string, addr: int, axis: int, val: Option<Value>): (r: Result<string>)
    requires key in t
    ensures !ValidAddress(addr) ==> r == Err(ValueError(InvalidAddressMsg))
    ensures ValidAddress(addr) && !ValidAxis(axis) ==> r == Err(ValueError(InvalidAxisMsg))
    ensures ValidAddress(addr) && ValidAxis(axis) ==> r == Ok(Wire(addr, Some(axis), t[key], val))
  {
    var _ :- VerifyAddress(addr);
    var _ :- VerifyAxis(axis);
    FormatCommand(t, t[key], addr, Some(axis), val)
  }

  /** Address checked, then format_command without axis: detect_motors, get_address. */
  function AddressCommand(t: Table, key: string, addr: int): (r: Result<string>)
    requires key in t
    ensures !ValidAddress(addr) ==> r == Err(ValueError(InvalidAddressMsg))
    ensures ValidAddress(addr) ==> r == Ok(Wire(addr, None, t[key], None))
  {
    var _ :- VerifyAddress(addr);
    FormatCommand(t, t[key], addr, None, None)
  }

  /** set_velocity: velocity 1..2000 steps/s. */
  function SetVelocityCommand(t: Table, addr: int, axis: int, val: int): (r: Result<string>)
    requires CompleteTable(t)
    ensures !ValidAddress(addr) ==> r == Err(ValueError(InvalidAddressMsg))
    ensures ValidAddress(addr) && !ValidAxis(axis) ==> r == Err(ValueError(InvalidAxisMsg))
    ensures ValidAddress(addr) && ValidAxis(axis) && !(1 <= val <= 2000) ==> r == Err(ValueError(VelocityMsg))
    ensures ValidAddress(addr) && ValidAxis(axis) && 1 <= val <= 2000
            ==> r == Ok(Wire(addr, Some(axis), t["set_velocity"], Some(Int(val))))
  {
    var _ :- VerifyAddress(addr);
    var _ :- VerifyAxis(axis);
    var _ :- Check(1 <= val <= 2000, VelocityMsg);
    FormatCommand(t, t["set_velocity"], addr, Some(axis), Some(Int(val)))
  }

  /** set_acceleration: acceleration 1..200000 steps/s^2. */
  function SetAccelerationCommand(t: Table, addr: int, axis: int, val: int): (r: Result<string>)
    requires CompleteTable(t)
    ensures !ValidAddress(addr) ==> r == Err(ValueError(InvalidAddressMsg))
    ensures ValidAddress(addr) && !ValidAxis(axis) ==> r == Err(ValueError(InvalidAxisMsg))
    ensures ValidAddress(addr) && ValidAxis(axis) && !(0 < val <= 200000) ==> r == Err(ValueError(AccelerationMsg))
    ensures ValidAddress(addr) && ValidAxis(axis) && 0 < val <= 200000
            ==> r == Ok(Wire(addr, Some(axis), t["set_accel"], Some(Int(val))))
  {
    var _ :- VerifyAddress(addr);
    var _ :- VerifyAxis(axis);
    var _ :- Check(0 < val <= 200000, AccelerationMsg);
    FormatCommand(t, t["set_accel"], addr, Some(axis), Some(Int(val)))
  }

  /** set_home: the value must be an int, so the default None is refused
      (with the acceleration message the driver uses here). */
  function SetHomeCommand(t: Table, addr: int, axis: int, val: Option<int>): (r: Result<string>)
    requires CompleteTable(t)
    ensures !ValidAddress(addr) ==> r == Err(ValueError(InvalidAddressMsg))
    ensures ValidAddress(addr) && !ValidAxis(axis) ==> r == Err(ValueError(InvalidAxisMsg))
    ensures ValidAddress(addr) && ValidAxis(axis) && val.None? ==> r == Err(ValueError(AccelerationMsg))
    ensures ValidAddress(addr) && ValidAxis(axis) && val.Some?
            ==> r == Ok(Wire(addr, Some(axis), t["define_home"], Some(Int(val.value))))
  {
    var _ :- VerifyAddress(addr);
    var _ :- VerifyAxis(axis);
    var _ :- Check(val.Some?, AccelerationMsg);
    FormatCommand(t, t["define_home"], addr, Some(axis), Some(Int(val.value)))
  }

  /** move_indefinitely: the direction is checked first, before address and axis. */
  function MoveIndefinitelyCommand(t: Table, addr: int, axis: int, direction: string): (r: Result<string>)
    requires CompleteTable(t)
    ensures direction != "+" && direction != "-" ==> r == Err(ValueError(DirectionMsg))
    ensures (direction == "+" || direction == "-") && !ValidAddress(addr) ==> r == Err(ValueError(InvalidAddressMsg))
    ensures (direction == "+" || direction == "-") && ValidAddress(addr) && !ValidAxis(axis)
            ==> r == Err(ValueError(InvalidAxisMsg))
    ensures (direction == "+" || direction == "-") && ValidAddress(addr) && ValidAxis(axis)
            ==> r == Ok(Wire(addr, Some(axis), t["move_indefinitely"], Some(Str(direction))))
  {
    var _ :- Check(direction == "+" || direction == "-", DirectionMsg);
    var _ :- VerifyAddress(addr);
    var _ :- VerifyAxis(axis);
    FormatCommand(t, t["move_indefinitely"], addr, Some(axis), Some(Str(direction)))
  }

  /** set_motor_type: motor-type code 0..3. */
  function SetMotorTypeCommand(t: Table, addr: int, axis: int, val: int): (r: Result<string>)
    requires CompleteTable(t)
    ensures !ValidAddress(addr) ==> r == Err(ValueError(InvalidAddressMsg))
    ensures ValidAddress(addr) && !ValidAxis(axis) ==> r == Err(ValueError(InvalidAxisMsg))
    ensures ValidAddress(addr) && ValidAxis(axis) && !(0 <= val <= 3) ==> r == Err(ValueError(MotorTypeMsg))
    ensures ValidAddress(addr) && ValidAxis(axis) && 0 <= val <= 3
            ==> r == Ok(Wire(addr, Some(axis), t["set_motor_type"], Some(Int(val))))
  {
    var _ :- VerifyAddress(addr);
    var _ :- VerifyAxis(axis);
    var _ :- Check(0 <= val <= 3, MotorTypeMsg);
    FormatCommand(t, t["set_motor_type"], addr, Some(axis), Some(Int(val)))
  }

  /** set_address: the new address must be 1..31, but it is handed to format_command in
      the axis position, so only 1..4 get through; they are sent as an axis digit in front
      of the mnemonic, with no value after it. */
  function SetAddressCommand(t: Table, addr: int, val: int): (r: Result<string>)
    requires CompleteTable(t)
    ensures !ValidAddress(addr) ==> r == Err(ValueError(InvalidAddressMsg))
    ensures ValidAddress(addr) && !(1 <= val <= 31) ==> r == Err(ValueError(NewAddressMsg))
    ensures ValidAddress(addr) && 5 <= val <= 31 ==> r == Err(ValueError(InvalidAxisMsg))
    ensures ValidAddress(addr) && 1 <= val <= 4 ==> r == Ok(Wire(addr, Some(val), t["set_address"], None))
  {
    var _ :- VerifyAddress(addr);
    var _ :- Check(1 <= val <= 31, NewAddressMsg);
    FormatCommand(t, t["set_address"], addr, Some(val), None)
  }

  /** scan: conflict-resolution mode 0..2, sent as the value of a command to address 1. */
  function ScanCommand(t: Table, mode: int): (r: Result<string>)
    requires CompleteTable(t)
    ensures !(0 <= mode <= 2) ==> r == Err(ValueError(ConflictResolutionMsg))
    ensures 0 <= mode <= 2 ==> r == Ok(Wire(1, None, t["scan_RS485"], Some(Int(mode))))
  {
    var _ :- Check(0 <= mode <= 2, ConflictResolutionMsg);
    FormatCommand(t, t["scan_RS485"], 1, None, Some(Int(mode)))
  }
  /** finished_moving's status query: format_command alone, so an axis of 0 is left out. */
  function MotionDoneCommand(t: Table, addr: int, axis: int): (r: Result<string>)
    requires CompleteTable(t)
    ensures r.Ok? <==> ValidAddress(addr) && (axis == 0 || ValidAxis(axis))
    ensures !ValidAddress(addr) ==> r == Err(ValueError(InvalidAddressMsg))
    ensures ValidAddress(addr) && axis != 0 && !ValidAxis(axis) ==> r == Err(ValueError(InvalidAxisMsg))
    ensures r.Ok? && axis == 0 ==> r.value == Wire(addr, None, t["query_motion_done"], None)
    ensures r.Ok? && axis != 0 ==> r.value == Wire(addr, Some(axis), t["query_motion_done"], None)
  {
    FormatCommand(t, t["query_motion_done"], addr, Some(axis), None)
  }

  /** is_scan_done's status query, to address 1. */
  function ScanDoneCommand(t: Table): (r: Result<string>)
    requires CompleteTable(t)
    ensures r == Ok(Wire(1, None, t["query_scan_status"], None))
  {
    FormatCommand(t, t["query_scan_status"], 1, None, None)
  }
}
