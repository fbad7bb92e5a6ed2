/** The command channel as a value: the commands written to the OUT endpoint so far
    and the replies the IN endpoint still has to deliver. The functions here say what
    one operation does to it; the Controller class performs the same steps in place. */
module Link {

  import opened Errors
  import opened Text
  import opened Protocol

  datatype Channel = Channel(written: seq<string>, replies: seq<seq<byte>>)

  /** What an operation leaves behind: the channel afterwards and its outcome. */
  datatype Step<+T> = Step(ch: Channel, out: Result<T>)

  /** ep_in.read(100): one reply, at most 100 bytes of it. */
  const ReadSize := 100

  function Read(reply: seq<byte>): (r: seq<byte>)
    ensures |r| <= ReadSize && r <= reply
    ensures |reply| <= ReadSize ==> r == reply
  {
    if |reply| <= ReadSize then reply else reply[..ReadSize]
  }

  /** A write-only operation: the validated command is sent and no reply is read;
      a failed validation sends nothing. */
  function Write(ch: Channel, cmd: Result<string>): (s: Step<()>)
    ensures s.ch.replies == ch.replies
    ensures s.out.Ok? <==> cmd.Ok?
    ensures cmd.Ok? ==> s.ch.written == ch.written + [cmd.value]
    ensures cmd.Err? ==> s.ch == ch && s.out.error == cmd.error
  {
    match cmd
    case Err(e) => Step(ch, Err(e))
    case Ok(c) => Step(ch.(written := ch.written + [c]), Ok(()))
  }

  /** A query: the validated command is sent, one reply is read and cleaned by
      parse_reply, and the cleaned text is converted by `decode`. A read with no reply
      left fails with a TransportError after the command was written. */
  function Query<T>(ch: Channel, cmd: Result<string>, decode: string -> Result<T>): (s: Step<T>)
    ensures cmd.Err? ==> s.ch == ch && s.out == Err(cmd.error)
    ensures cmd.Ok? ==> s.ch.written == ch.written + [cmd.value]
    ensures cmd.Ok? && ch.replies == [] ==> s.ch.replies == [] && s.out == Err(TransportError)
    ensures cmd.Ok? && ch.replies != [] ==>
              s.ch.replies == ch.replies[1..] && s.out == decode(ParseReply(Read(ch.replies[0])))
  {
    match cmd
    case Err(e) => Step(ch, Err(e))
    case Ok(c) =>
      var sent := ch.(written := ch.written + [c]);
      if ch.replies == [] then Step(sent, Err(TransportError))
      else Step(sent.(replies := ch.replies[1..]), decode(ParseReply(Read(ch.replies[0]))))
  }

  /** `while not done(): pass` - the status query is repeated until a reply ends in '1'.
      A status query that fails ends the loop with its error. */
  function Poll(ch: Channel, status: Result<string>): Step<()>
    decreases |ch.replies|
  {
    var s := Query(ch, status, DecodeDone);
    match s.out
    case Err(e) => Step(s.ch, Err(e))
    case Ok(done) => if done then Step(s.ch, Ok(())) else Poll(s.ch, status)
  }

  /** move_to_target, move_relative and scan: one command, then the status poll. */
  function CommandThenPoll(ch: Channel, cmd: Result<string>, status: Result<string>): Step<()> {
    var s := Write(ch, cmd);
    if s.out.Err? then s else Poll(s.ch, status)
  }

  /** Whether a scripted reply, as read and cleaned, says "done". */
  function ReplyDone(reply: seq<byte>): Result<bool> {
    DecodeDone(ParseReply(Read(reply)))
  }

  function Repeat(c: string, n: nat): (r: seq<string>)
    ensures |r| == n && forall i :: 0 <= i < n ==> r[i] == c
  {
    seq(n, _ => c)
  }

  lemma RepeatCons(c: string, n: nat)
    ensures [c] + Repeat(c, n) == Repeat(c, n + 1)
  {
    var a, b := [c] + Repeat(c, n), Repeat(c, n + 1);
    assert forall i :: 0 <= i < n + 1 ==> a[i] == b[i];
  }

  /** The outcome of a poll that stops on a given status answer. */
  function Settle(answer: Result<bool>): Result<()> {
    match answer
    case Ok(_) => Ok(())
    case Err(e) => Err(e)
  }

  /** One round of the poll against a non-empty reply queue. */
  lemma PollStep(ch: Channel, status: Result<string>)
    requires status.Ok? && ch.replies != []
    ensures var after := Channel(ch.written + [status.value], ch.replies[1..]);
            Poll(ch, status) == match ReplyDone(ch.replies[0])
                                case Err(e) => Step(after, Err(e))
                                case Ok(done) => if done then Step(after, Ok(())) else Poll(after, status)
  {
  }

  /** A "not done" reply is consumed and the poll goes on with the rest. */
  lemma PollSkips(ch: Channel, status: Result<string>)
    requires status.Ok? && ch.replies != [] && ReplyDone(ch.replies[0]) == Ok(false)
    ensures Poll(ch, status) == Poll(Channel(ch.written + [status.value], ch.replies[1..]), status)
  {
    PollStep(ch, status);
  }

  /** How many replies at the head of the queue say "not done". */
  function LeadingNotDone(replies: seq<seq<byte>>): (k: nat)
    ensures k <= |replies|
  {
    if replies != [] && ReplyDone(replies[0]) == Ok(false) then 1 + LeadingNotDone(replies[1..]) else 0
  }

  /** What a poll amounts to: one status query per leading "not done" reply plus one
      more; it stops on the first reply that is not "not done", with that reply's
      outcome, or fails with a TransportError once the queue is empty. */
  function PollSummary(ch: Channel, status: string): Step<()> {
    var k := LeadingNotDone(ch.replies);
    var written := ch.written + Repeat(status, k + 1);
    if k < |ch.replies| then Step(Channel(written, ch.replies[k + 1..]), Settle(ReplyDone(ch.replies[k])))
    else Step(Channel(written, []), Err(TransportError))
  }

  /** Skipping a "not done" reply does not change the summary. */
  lemma PollSummarySkips(ch: Channel, status: string)
    requires ch.replies != [] && ReplyDone(ch.replies[0]) == Ok(false)
    ensures PollSummary(ch, status) == PollSummary(Channel(ch.written + [status], ch.replies[1..]), status)
  {
    var rest := Channel(ch.written + [status], ch.replies[1..]);
    var k := LeadingNotDone(rest.replies);
    assert LeadingNotDone(ch.replies) == k + 1;
    var written := rest.written + Repeat(status, k + 1);
    assert written == ch.written + Repeat(status, k + 2) by {
      RepeatCons(status, k + 1);
      assert rest.written + Repeat(status, k + 1) == ch.written + ([status] + Repeat(status, k + 1));
    }
    if k < |rest.replies| {
      assert rest.replies[k] == ch.replies[k + 1];
      assert rest.replies[k + 1..] == ch.replies[k + 2..];
      assert PollSummary(rest, status) == Step(Channel(written, rest.replies[k + 1..]), Settle(ReplyDone(rest.replies[k])));
    } else {
      assert PollSummary(rest, status) == Step(Channel(written, []), Err(TransportError));
    }
  }

  /** The poll is its summary. */
  lemma {:induction false} PollOutcome(ch: Channel, status: Result<string>)
    requires status.Ok?
    ensures Poll(ch, status) == PollSummary(ch, status.value)
    decreases |ch.replies|
  {
    if ch.replies == [] {
      assert Repeat(status.value, 1) == [status.value];
    } else if ReplyDone(ch.replies[0]) == Ok(false) {
      var rest := Channel(ch.written + [status.value], ch.replies[1..]);
      PollSkips(ch, status);
      PollOutcome(rest, status);
      PollSummarySkips(ch, status.value);
    } else {
      PollStep(ch, status);
      assert Repeat(status.value, 1) == [status.value];
    }
  }

  /** LeadingNotDone counts exactly the "not done" replies before the first other one. */
  lemma {:induction false} LeadingNotDoneIs(replies: seq<seq<byte>>, k: nat)
    requires k <= |replies|
    requires forall i :: 0 <= i < k ==> ReplyDone(replies[i]) == Ok(false)
    requires k < |replies| ==> ReplyDone(replies[k]) != Ok(false)
    ensures LeadingNotDone(replies) == k
    decreases k
  {
    if k > 0 {
      var tail := replies[1..];
      assert ReplyDone(replies[0]) == Ok(false);
      forall i | 0 <= i < k - 1
        ensures ReplyDone(tail[i]) == Ok(false)
      {
        assert tail[i] == replies[i + 1];
      }
      assert k - 1 < |tail| ==> tail[k - 1] == replies[k];
      LeadingNotDoneIs(tail, k - 1);
    } else if replies != [] {
      assert ReplyDone(replies[0]) != Ok(false);
    }
  }

  /** If k "not done" replies come first and reply k answers, exactly k + 1 status
      queries are written and k + 1 replies are consumed. */
  lemma PollStopsAtFirstAnswer(ch: Channel, status: Result<string>, k: nat)
    requires status.Ok?
    requires k < |ch.replies|
    requires forall i :: 0 <= i < k ==> ReplyDone(ch.replies[i]) == Ok(false)
    requires ReplyDone(ch.replies[k]) != Ok(false)
    ensures Poll(ch, status) == Step(Channel(ch.written + Repeat(status.value, k + 1), ch.replies[k + 1..]),
                                     Settle(ReplyDone(ch.replies[k])))
  {
    assert LeadingNotDone(ch.replies) == k by {
      LeadingNotDoneIs(ch.replies, k);
    }
    var after := Step(Channel(ch.written + Repeat(status.value, k + 1), ch.replies[k + 1..]),
                      Settle(ReplyDone(ch.replies[k])));
    assert PollSummary(ch, status.value) == after;
    assert Poll(ch, status) == PollSummary(ch, status.value) by {
      PollOutcome(ch, status);
    }
  }

  /** If no reply answers, every reply is consumed and the poll fails with a
      TransportError after one more status query than there were replies. */
  lemma PollRunsOut(ch: Channel, status: Result<string>)
    requires status.Ok?
    requires forall i :: 0 <= i < |ch.replies| ==> ReplyDone(ch.replies[i]) == Ok(false)
    ensures Poll(ch, status) == Step(Channel(ch.written + Repeat(status.value, |ch.replies| + 1), []), Err(TransportError))
  {
    LeadingNotDoneIs(ch.replies, |ch.replies|);
    PollOutcome(ch, status);
  }

  /** A motion or scan command that fails validation writes nothing and reads nothing. */
  lemma CommandThenPollRefused(ch: Channel, cmd: Result<string>, status: Result<string>)
    requires cmd.Err?
    ensures CommandThenPoll(ch, cmd, status) == Step(ch, Err(cmd.error))
  {
  }
  /** A motion or scan command that passes validation is written once; then one status
      query per leading "not done" reply and one for the reply that answers. */
  lemma CommandThenPollCounts(ch: Channel, cmd: Result<string>, status: Result<string>, k: nat)
    requires cmd.Ok? && status.Ok?
    requires k < |ch.replies|
    requires forall i :: 0 <= i < k ==> ReplyDone(ch.replies[i]) == Ok(false)
    requires ReplyDone(ch.replies[k]) != Ok(false)
    ensures CommandThenPoll(ch, cmd, status)
            == Step(Channel(ch.written + [cmd.value] + Repeat(status.value, k + 1), ch.replies[k + 1..]),
                    Settle(ReplyDone(ch.replies[k])))
  {
    PollStopsAtFirstAnswer(Write(ch, cmd).ch, status, k);
  }
  /** Three "not done" replies and then a "done" one: four status queries, every reply used. */
  lemma PollThreeThenDone(ch: Channel, status: string, notDone: seq<byte>, done: seq<byte>)
    requires ReplyDone(notDone) == Ok(false) && ReplyDone(done) == Ok(true)
    requires ch.replies == [notDone, notDone, notDone, done]
    ensures Poll(ch, Ok(status)) == Step(Channel(ch.written + [status, status, status, status], []), Ok(()))
  {
    assert forall i :: 0 <= i < 3 ==> ReplyDone(ch.replies[i]) == Ok(false) by {
      assert forall i :: 0 <= i < 3 ==> ch.replies[i] == notDone;
    }
    assert ReplyDone(ch.replies[3]) == Ok(true) && ch.replies[4..] == [];
    PollStopsAtFirstAnswer(ch, Ok(status), 3);
    assert Repeat(status, 4) == [status, status, status, status];
  }
}
