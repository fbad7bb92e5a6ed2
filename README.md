# Picomotor 8742 command protocol in Dafny

This project models the command-protocol layer of the `Controller` class of a Python
driver for the Newport 8742 picomotor controller (src/picomotor.py). The driver talks
to the controller over USB by writing ASCII commands of the form
`{addr}>[{axis}]{mnemonic}[{value}]\r` and reading ASCII replies that echo the address
(`1>...`). Each operation checks its arguments before it writes anything.
`format_command` always checks the mnemonic and the controller address (1 or 2 on the
RS-485 bus). It checks the axis (1..4) only when the axis is truthy: an axis of 0 is
neither checked nor sent. Operations that call `verify_axis_value` themselves refuse
axis 0. The six queries that rely on `format_command` alone accept it:
`get_acceleration`, `get_home`, `finished_moving`, `get_target`,
`get_relative_target` and `get_motor_type`. Operations with a value also check its
range. A write-only operation then writes exactly one command. A query writes one
command, reads one reply and converts it. `move_to_target`, `move_relative` and
`scan` write their command and then repeat a status query until a reply says "done".
With k "not done" replies first, they write 1 + (k + 1) commands.

Files and modules:

- `errors.dfy` (`Errors`): the exceptions the driver raises (`ValueError` with its
  message, `IndexError`, `KeyError`), plus `TransportError` for a read that gets no
  reply. Also the `Result`/`Option` wrappers.
- `text.dfy` (`Text`): bytes to characters, and `str.rstrip()` over Python's
  whitespace. Also decimal printing (`f'{n}'`) and `int()` of a sign-and-digits
  string, with the round trip between them.
- `bits.dfy` (`Bits`): `format(n, 'b')`, the digit list read back with `int()`, and
  its reversal. The result is proved to be the bit list of `n`, least significant
  bit first.
- `protocol.dfy` (`Protocol`): the command table, `verify_*`, `format_command`,
  `parse_reply`, and the reply conversions (int, done flag, motor-type label, address
  map). Also the validation each operation performs before it writes anything.
- `link.dfy` (`Link`): the USB channel as a value, meaning the log of written
  commands and the queue of replies still to be read. It also has the functions that
  say what a write-only operation, a query and a poll do to the channel, with the
  lemmas about the poll.
- `controller.dfy` (`Picomotor`): `class Controller`. Its fields are the command
  table, the written-command log and the reply queue. `SendCommand` and every
  operation of the driver are methods; the two blocking waits are `while` loops. Each
  method's `ensures` says that its result and the new channel are the `Link`
  function for the same steps, applied to the channel before the call.

## Model

| member | source | states |
|---|---|---|
| Protocol.VerifyCommand | src/picomotor.py:118-120 | succeeds exactly when the mnemonic is one of the table's values; otherwise ValueError("Invalid command") |
| Protocol.VerifyAddress | src/picomotor.py:123-125 | succeeds exactly for address 1 or 2; otherwise ValueError("Invalid address value") |
| Protocol.VerifyAxis | src/picomotor.py:128-130 | succeeds exactly for axis 1..4; otherwise ValueError("Invalid axis value") |
| Protocol.FormatCommand | src/picomotor.py:133-148 | fails in order on an unknown mnemonic, then a bad address, then a bad axis, and a bad axis only when the axis is truthy (an absent axis and axis 0 are neither checked nor sent); succeeds exactly when none of these applies, with the text addr, '>', the axis when truthy, the mnemonic, the value when given, '\r' |
| Protocol.WireLayout | src/picomotor.py:139-148 | a validated command starts with the address digit and '>', carries the axis digit at index 2 when there is one, then the mnemonic and the value text, and ends in the one '\r' appended after the value text; an integer value reads back with int() |
| Text.IntRoundTrip | src/picomotor.py:144 | the decimal text of any integer, as an f-string writes it, reads back with int() to the same integer |
| Text.DecodeBytes | src/picomotor.py:112 | turns each reply byte into the character with that code; Protocol.ParseReplySpec states the result: character i of the cleaned reply is reply byte i + 2 |
| Text.RStrip | src/picomotor.py:115 | rstrip() returns a prefix of its input; Text.RStripSpec proves it is the longest prefix that does not end in whitespace |
| Text.IntToString | src/picomotor.py:144 | the text f'{val}' writes for an integer: non-empty, all digits for n >= 0, '-' and then digits for n < 0 |
| Text.ParseInt | src/picomotor.py:210 | int(text): no value unless the text ends in a digit; a string of digits gives its decimal value |
| Text.ParseIntSpec | src/picomotor.py:210 | int(text) gives a value exactly when the text is digits, or '+' or '-' followed by digits; digits give their decimal value, '+' keeps it, '-' negates it; any other text gives none |
| Text.RStripSpec | src/picomotor.py:115 | rstrip() keeps a prefix of its input that does not end in whitespace, and everything it drops is whitespace |
| Protocol.ParseReply | src/picomotor.py:100-115 | parse_reply; Protocol.ParseReplySpec states its contract: length max(0, len(stripped) - 2), never an error, character i is reply byte i + 2 |
| Protocol.ParseReplySpec | src/picomotor.py:100-115 | the cleaned reply has length max(0, len(stripped) - 2) with no error on short replies; its character i is the reply byte at offset i + 2; it does not end in whitespace, and every reply byte after it is whitespace |
| Protocol.ParseReplyExample | src/picomotor.py:111-115 | the bytes of "1>XYZ\r\n" clean to "XYZ" |
| Protocol.DecodeInt | src/picomotor.py:210 | int(reply): the integer ParseInt gives (an optional sign followed by digits, as Text.ParseIntSpec states exactly), otherwise a ValueError |
| Protocol.DecodeIntExamples | src/picomotor.py:210 | int() of the replies "+7" and "-007" gives 7 and -7; "1a2" raises a ValueError |
| Protocol.LastChar | src/picomotor.py:318 | reply[-1]: the last character, or IndexError on an empty reply |
| Protocol.DecodeDone | src/picomotor.py:318 | true exactly when the reply's last character is '1'; an empty reply is an IndexError |
| Protocol.DecodeMotorType | src/picomotor.py:5-10 | last character '0'..'3' gives "No motor connected", "Motor Unknown", "'Tiny' Motor", "'Standard' Motor"; any other character is a KeyError and an empty reply an IndexError |
| Bits.NatToBinary | src/picomotor.py:548 | format(n, 'b') for n >= 0: at least one character, each '0' or '1' |
| Bits.FormatBinary | src/picomotor.py:548 | format(n, 'b'): binary digits only for n >= 0; for n < 0 a leading '-' followed by at least one more character |
| Bits.BinaryAddressMap | src/picomotor.py:548-549 | the map of an integer succeeds exactly when n >= 0, is non-empty, and holds only 0 and 1; a negative n raises the ValueError of int('-') |
| Bits.DigitList | src/picomotor.py:548 | [int(s) for s in text] succeeds exactly when every character is a digit, giving the digits' values in order; otherwise a ValueError |
| Bits.Reverse | src/picomotor.py:549 | s[::-1]: same length, entry i is entry len - 1 - i |
| Bits.BinaryAddressMapIsLsbBits | src/picomotor.py:548-549 | for n >= 0 the reversed digit list of format(n, 'b') is the bit list of n, least significant bit first |
| Bits.BinaryAddressMapOfNegative | src/picomotor.py:548 | for n < 0 the leading '-' makes int('-') raise a ValueError |
| Bits.LsbBitsRepresent | src/picomotor.py:548-549 | the bit list has 0/1 entries, reads back to n, ends in 1 unless n is 0, and n lies between 2^(len-1) and 2^len |
| Bits.LsbBitsAt | src/picomotor.py:548-549 | entry i of the bit list is bit i of n |
| Protocol.DecodeAddressMap | src/picomotor.py:548-549 | the conversion of the cleaned reply succeeds exactly when int() gives n >= 0; the map is non-empty with 0/1 entries; otherwise a ValueError |
| Protocol.AddressMapOfReply | src/picomotor.py:535-549 | a reply holding n >= 0 gives the map whose index i is bit i of n (index 0 the conflict flag), ending in 1 unless n is 0 and reading back to n |
| Protocol.AddressMapOfBadReply | src/picomotor.py:548 | a reply that is not a number, or a negative one, raises a ValueError |
| Protocol.AddressMapOfFive | src/picomotor.py:548-549 | reply "5" gives [1, 0, 1] |
| Protocol.AddressMapOfSix | src/picomotor.py:548-549 | reply "6" gives [0, 1, 1] |
| Protocol.AddressMapOfZero | src/picomotor.py:548-549 | reply "0" gives [0] |
| Protocol.AxisCommand | src/picomotor.py:203-206 | address checked, then axis checked strictly (0 refused), then the command with the axis; errors in that order |
| Protocol.AddressCommand | src/picomotor.py:414-416 | address checked, then the command without an axis |
| Protocol.SetVelocityCommand | src/picomotor.py:182-188 | address, axis, then velocity 1..2000 ("Velocity must be between 1 and 2000"), then the command carrying the velocity |
| Protocol.SetAccelerationCommand | src/picomotor.py:224-230 | address, axis, then acceleration 1..200000 ("Invalid acceleration value"), then the command carrying it |
| Protocol.SetHomeCommand | src/picomotor.py:285-291 | address, axis, then a missing value is refused with "Invalid acceleration value"; otherwise the command carrying the value |
| Protocol.MoveIndefinitelyCommand | src/picomotor.py:332-338 | the direction is checked first ('+' or '-'), then address, then axis; the command carries the direction |
| Protocol.SetMotorTypeCommand | src/picomotor.py:433-439 | address, axis, then motor type 0..3 ("Invalid motor type"), then the command carrying it |
| Protocol.SetAddressCommand | src/picomotor.py:476-480 | address, then new address 1..31 ("New address must be between 1 and 31"); the new address goes into the axis slot, so 5..31 are refused as an invalid axis, and 1..4 are sent as the axis digit with no value |
| Protocol.MotionDoneCommand | src/picomotor.py:314 | finished_moving's status query: only format_command's checks, so it succeeds exactly for address 1 or 2 and axis 0 or 1..4, with the address error first; axis 0 is left out of the text |
| Protocol.ScanDoneCommand | src/picomotor.py:528 | is_scan_done's status query never fails; its text is address 1, '>', the scan-status mnemonic, '\r' |
| Protocol.ScanCommand | src/picomotor.py:517-520 | mode 0..2 (else "Conflict resolution scheme must be 0, 1, or 2."), sent to address 1 as the command's value |
| Link.Read | src/picomotor.py:97 | read(100) delivers at most 100 bytes, a prefix of the reply, and the whole reply when it fits |
| Link.Write | src/picomotor.py:95-96 | a write-only operation: a refused command leaves the channel as it was and returns the error; a valid one is appended to the log once and no reply is consumed |
| Link.Query | src/picomotor.py:95-97 | a query: a refused command writes nothing; a valid one is logged once and then consumes exactly one reply, which is cleaned and converted; an empty queue is a TransportError after the write |
| Link.Poll | src/picomotor.py:362-363 | `while not done(): pass` as a function of the channel; Link.PollOutcome states its contract: one status query per leading "not done" reply plus one, then the first answer's outcome or a TransportError |
| Link.CommandThenPoll | src/picomotor.py:359-363 | the motion or scan command, then the poll; its contract is stated by Link.CommandThenPollRefused (a refused command writes nothing) and Link.CommandThenPollCounts (one command, then k + 1 status queries) |
| Link.PollOutcome | src/picomotor.py:362-363 | the poll writes one status query per leading "not done" reply plus one; it ends with the first reply that is not "not done" (its error, or success), or with a TransportError once the replies run out |
| Link.LeadingNotDoneIs | src/picomotor.py:362 | the count of leading "not done" replies is exactly k when replies 0..k-1 say "not done" and reply k does not |
| Link.PollStopsAtFirstAnswer | src/picomotor.py:362-363 | with k "not done" replies first and reply k answering, exactly k + 1 status queries are written and k + 1 replies are consumed |
| Link.PollRunsOut | src/picomotor.py:362-363 | if no reply answers, every reply is consumed, one more status query than replies is written, and the result is a TransportError |
| Link.CommandThenPollRefused | src/picomotor.py:353-357 | a motion or scan command that fails validation writes nothing and reads nothing |
| Link.CommandThenPollCounts | src/picomotor.py:359-363 | a valid motion or scan command is written once, followed by exactly k + 1 status queries when k "not done" replies come first |
| Link.PollThreeThenDone | src/picomotor.py:362-363 | three "not done" replies then a "done" one: four status queries, every reply used, success |
| Picomotor.Controller.constructor | src/picomotor.py:16-28 | a controller on a ready channel with an empty write log and the given replies to come |
| Picomotor.Controller.SendCommand | src/picomotor.py:83-97 | the command is appended to the write log; without get_reply nothing is read; with it one reply is taken from the queue and at most 100 bytes of it are returned, or TransportError when none is left |
| Picomotor.Controller.Ask | src/picomotor.py:207-209 | `parse_reply(send_command(cmd, True))`: the command is written once, one reply is consumed and its cleaned text returned; TransportError when no reply is left |
| Picomotor.Controller.GetId | src/picomotor.py:151-158 | result and channel are the query of the id command (address checked only by format_command) returning the cleaned reply |
| Picomotor.Controller.GetFirmwareVersion | src/picomotor.py:161-168 | the query of the firmware command to address 1, returning the cleaned reply |
| Picomotor.Controller.SetVelocity | src/picomotor.py:171-189 | the write-only step of SetVelocityCommand: refused before any write outside its domain, otherwise exactly one command written and no reply read |
| Picomotor.Controller.GetVelocity | src/picomotor.py:192-210 | the query of AxisCommand("query_velocity"), converted with int() |
| Picomotor.Controller.SetAcceleration | src/picomotor.py:213-231 | the write-only step of SetAccelerationCommand |
| Picomotor.Controller.GetAcceleration | src/picomotor.py:234-249 | the query built by format_command alone (a falsy axis is left out unchecked), converted with int() |
| Picomotor.Controller.GetPosition | src/picomotor.py:252-272 | the query of AxisCommand("query_pos"), converted with int() |
| Picomotor.Controller.SetHome | src/picomotor.py:275-292 | the write-only step of SetHomeCommand |
| Picomotor.Controller.GetHome | src/picomotor.py:295-300 | the query built by format_command alone, returning the cleaned reply |
| Picomotor.Controller.FinishedMoving | src/picomotor.py:303-318 | the status query, converted to true exactly when the reply ends in '1' |
| Picomotor.Controller.MoveIndefinitely | src/picomotor.py:321-339 | the write-only step of MoveIndefinitelyCommand |
| Picomotor.Controller.MoveToTarget | src/picomotor.py:342-363 | the move command (refused before any write when invalid), then the status poll: the channel and outcome are CommandThenPoll's |
| Picomotor.Controller.WaitForMotion | src/picomotor.py:362-363 | the loop repeating finished_moving ends with the poll's channel and outcome |
| Picomotor.Controller.GetTarget | src/picomotor.py:366-371 | the query built by format_command alone, converted with int() |
| Picomotor.Controller.MoveRelative | src/picomotor.py:374-395 | the relative move command, then the status poll, as CommandThenPoll says |
| Picomotor.Controller.GetRelativeTarget | src/picomotor.py:398-403 | the query built by format_command alone, returning the cleaned reply |
| Picomotor.Controller.DetectMotors | src/picomotor.py:406-417 | the write-only step of AddressCommand("motor_check") |
| Picomotor.Controller.SetMotorType | src/picomotor.py:420-440 | the write-only step of SetMotorTypeCommand |
| Picomotor.Controller.GetMotorType | src/picomotor.py:443-463 | the query built by format_command alone, converted by the MOTOR_TYPE lookup of the last character |
| Picomotor.Controller.SetAddress | src/picomotor.py:466-481 | the write-only step of SetAddressCommand |
| Picomotor.Controller.GetAddress | src/picomotor.py:484-500 | the query of AddressCommand("query_address"), converted with int() |
| Picomotor.Controller.Scan | src/picomotor.py:503-524 | the scan command (refused before any write when the mode is outside 0..2), then the loop on is_scan_done: the channel and outcome are CommandThenPoll's |
| Picomotor.Controller.IsScanDone | src/picomotor.py:527-532 | the scan-status query to address 1, true exactly when the reply ends in '1' |
| Picomotor.Controller.GetControllerAddressMap | src/picomotor.py:535-549 | the query of the RS-485 address command, converted to the address map |
| Picomotor.Controller.SaveSettings | src/picomotor.py:552-564 | the write-only step of the save command to address 1 |
| Picomotor.Controller.StopMotion | src/picomotor.py:567-580 | the write-only step of AxisCommand("stop") |
| Picomotor.Controller.GetLatestErrorMsg | src/picomotor.py:583-596 | the error-message query to address 1, returning the cleaned reply |
| Picomotor.Controller.GetLatestErrorCode | src/picomotor.py:599-612 | the error-code query to address 1, returning the cleaned reply |
| Picomotor.Controller.PurgeAllSettings | src/picomotor.py:615-625 | the write-only step of the purge command to address 1 |
| Picomotor.GetVelocityExample | src/picomotor.py:192-210 | get_velocity(1, 2) with the reply "1>500\r" writes one command and returns 500 |
| Picomotor.StatusReplies | src/picomotor.py:318 | the reply "1>0\r" says "not done" and "1>1\r" says "done" |
| Picomotor.MoveToTargetExample | src/picomotor.py:342-363 | move_to_target(1, 1, 500) with three "not done" replies then a "done" one writes the move and exactly four status queries and succeeds |
| Picomotor.ScanRefused | src/picomotor.py:517-518 | scan with a mode outside 0..2 writes nothing and reads nothing |

## Left out

- `_connect` (USB device lookup, configuration, endpoint discovery and its `print`) is
  not part of this model. So is the firmware query `__init__` makes through it. The
  constructor starts from a connected channel.
- The USB transport itself is an abstract channel: a log of written commands and a
  queue of reply byte strings. A write never fails. One `read(100)` takes one whole
  queued reply and keeps at most its first 100 bytes. A read with nothing queued is a
  `TransportError`; the real driver would block or time out in pyusb.
- The contents of the `commands` module are not part of this model. The table is an
  abstract map from operation name to mnemonic. A controller requires it to hold
  every name the driver looks up.
- Python's `type(x) == int` checks are implied by the Dafny argument types. So the
  "Invalid target position" checks of `move_to_target` and `move_relative` can never
  fire, and `set_home`'s check refuses only a missing value.
- Protocol.DecodeInt: `int()` is modelled as an optional sign followed by ASCII
  digits. Surrounding whitespace, underscores and non-ASCII digits, which Python
  accepts, are refused here. The error message is fixed and does not quote the
  offending text.
- Protocol.DecodeMotorType: the `KeyError` carries no key.
- `src/example.py`, a demo script of prints, sleeps and hardware calls, is not part of
  this model.
- Physical motion and timing are not modelled. The poll sees only the replies, and it
  terminates because every status query consumes one queued reply.
- Default arguments (`addr = 1`, `set_address`'s `val = 1`, `scan`'s
  `conflict_resolution = 0`) are explicit parameters. `set_home`'s `val = None` is an
  `Option<int>`.
- Three behaviours of the code that a caller might not expect are modelled as written:
  - `parse_reply` does not raise on a reply of two or fewer characters after
    stripping. It returns `""` by slicing (src/picomotor.py:115, Protocol.ParseReplySpec).
  - `format_command` tests `if axis:`, so an axis of 0 is neither checked nor sent
    (src/picomotor.py:137). The six queries that rely on `format_command` alone
    therefore accept axis 0.
  - `set_address` checks the new address against 1..31, then passes it to
    `format_command` as the axis, so only 1..4 are ever sent
    (src/picomotor.py:477-480, Protocol.SetAddressCommand).
