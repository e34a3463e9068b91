/** create_poll (bot.py:58-73): the job that either reports a weather
    failure to the group or sends tomorrow's poll. Telegram sends are
    appends to the bot's outbox, in send order. */
module Dispatcher {
  import opened PyValue
  import opened Weather
  import opened PollBuilder

  /** An outbound Telegram call: `send_message` or `send_poll`. */
  datatype Message =
    | Text(chat: string, text: string)
    | Poll(chat: string, question: string, options: seq<string>,
           isAnonymous: bool, allowsMultipleAnswers: bool)

  /** The text sent when the hour-7 reading is missing. */
  const ErrorNotice := "Error fetching weather data."

  /** `f"🎾 game on {tomorrow}:"`, where `tomorrow` is the formatted date. */
  function Question(tomorrow: string): string
  {
    "\U{1F3BE} game on " + tomorrow + ":"
  }

  /** Different dates give different questions. */
  lemma QuestionNamesDate(a: string, b: string)
    requires Question(a) == Question(b)
    ensures a == b
  {
    var prefix := "\U{1F3BE} game on ";
    assert Question(a) == prefix + (a + ":");
    assert Question(b) == prefix + (b + ":");
    SamePrefix(prefix, a + ":", b + ":");
    assert a == (a + ":")[..|a|];
    assert b == (b + ":")[..|b|];
  }

  /** What one run of the job sends, in order, and the exception that
      escapes it, if any. */
  datatype JobRun = JobRun(sent: seq<Message>, raised: Option<PyException>)

  /** One run of create_poll. `gate` is what get_weather(7) produced on
      the first line; `tomorrow` is the formatted date of the second line,
      or the exception computing it raised; `slots` are what the five
      get_weather calls inside poll_options produce, if it is called.
      The two hour-7 calls are separate requests, so `gate` and
      `slots[0]` are independent. */
  function PollJob(chat: string, gate: Outcome, tomorrow: Result<string, PyException>,
                   slots: seq<Outcome>): (run: JobRun)
    requires |slots| == HourCount
    ensures |run.sent| <= 1
    ensures |run.sent| == 1 <==> run.raised.None?
    ensures run.sent == [Text(chat, ErrorNotice)] <==>
      gate.Returned? && tomorrow.Ok? && !HasReading(gate)
    ensures |run.sent| == 1 && run.sent[0].Poll? <==>
      HasReading(gate) && tomorrow.Ok? && BuildOptions(slots).Ok?
    ensures run.raised.Some? <==>
      gate.Raised? || tomorrow.Err? || (HasReading(gate) && BuildOptions(slots).Err?)
    ensures run.raised.Some? ==>
      run.raised.value == (if gate.Raised? then gate.error
                           else if tomorrow.Err? then tomorrow.error
                           else BuildOptions(slots).error)
  {
    match gate
    case Raised(e) => JobRun([], Some(e))
    case Returned(temp, rain) =>
      match tomorrow
      case Err(e) => JobRun([], Some(e))
      case Ok(date) =>
        if temp.None? || rain == JNull then JobRun([Text(chat, ErrorNotice)], None)
        else
          match BuildOptions(slots)
          case Err(e) => JobRun([], Some(e))
          case Ok(options) => JobRun([Poll(chat, Question(date), options, false, true)], None)
  }

  /** The bot, as far as the job is concerned: the group chat it posts to
      and everything it has sent so far. */
  class Bot {
    const chat: string
    var outbox: seq<Message>

    constructor (chat: string)
      ensures this.chat == chat && outbox == []
    {
      this.chat := chat;
      outbox := [];
    }

    /** create_poll: the sends of one run are appended to the outbox and
        nothing sent earlier changes. */
    method CreatePoll(gate: Outcome, tomorrow: Result<string, PyException>, slots: seq<Outcome>)
      returns (raised: Option<PyException>)
      requires |slots| == HourCount
      modifies this
      ensures outbox == old(outbox) + PollJob(chat, gate, tomorrow, slots).sent
      ensures raised == PollJob(chat, gate, tomorrow, slots).raised
    {
      if gate.Raised? {
        return Some(gate.error);
      }
      if tomorrow.Err? {
        return Some(tomorrow.error);
      }
      if gate.temp.None? || gate.rain == JNull {
        outbox := outbox + [Text(chat, ErrorNotice)];
        return None;
      }
      var options := PollOptions(slots);
      if options.Err? {
        return Some(options.error);
      }
      outbox := outbox + [Poll(chat, Question(tomorrow.value), options.value, false, true)];
      return None;
    }
  }

  // ---------------------------------------------------------------------
  // Properties of the job

  /** A missing hour-7 temperature or rain sends the notice and nothing
      else, whatever the later hours would have shown: the options are
      never built. */
  lemma GateFailureSendsNotice(chat: string, gate: Outcome, tomorrow: string,
                               slots: seq<Outcome>, others: seq<Outcome>)
    requires gate.Returned? && (gate.temp.None? || gate.rain == JNull)
    requires |slots| == HourCount && |others| == HourCount
    ensures PollJob(chat, gate, Ok(tomorrow), slots) == JobRun([Text(chat, ErrorNotice)], None)
    ensures PollJob(chat, gate, Ok(tomorrow), slots) == PollJob(chat, gate, Ok(tomorrow), others)
  {
  }

  /** A complete hour-7 reading sends exactly one poll: non-anonymous,
      multiple-answer, asking about tomorrow, with the eight options of
      poll_options in their order; it sends no notice. */
  lemma GatePassSendsPoll(chat: string, gate: Outcome, tomorrow: string, slots: seq<Outcome>)
    requires HasReading(gate) && |slots| == HourCount
    requires forall i :: 0 <= i < HourCount ==> slots[i].Returned?
    ensures var run := PollJob(chat, gate, Ok(tomorrow), slots);
      run.raised.None? && |run.sent| == 1 && run.sent[0].Poll? &&
      var poll := run.sent[0];
      poll.chat == chat && poll.question == Question(tomorrow) &&
      !poll.isAnonymous && poll.allowsMultipleAnswers &&
      |poll.options| == OptionCount &&
      (forall i :: 0 <= i < HourCount ==>
         poll.options[i] == Label(FirstHour + i, slots[i].temp, slots[i].rain)) &&
      poll.options[HourCount..] == Trailing
  {
    OptionsShape(slots);
  }

  /** The gate and the hour-7 option come from separate requests: the gate
      can pass while the poll's first option is the bare hour. */
  lemma GatePassWithBareFirstHour(chat: string, tomorrow: string, slots: seq<Outcome>)
    requires |slots| == HourCount && slots[0] == NoReading
    requires forall i :: 0 <= i < HourCount ==> slots[i].Returned?
    ensures var run := PollJob(chat, Returned(Some(20), JNum(0)), Ok(tomorrow), slots);
      |run.sent| == 1 && run.sent[0].Poll? && run.sent[0].options[0] == "7:00AM"
  {
    OptionsShape(slots);
    BareHours();
  }

  /** An exception from get_weather inside poll_options escapes the job
      after a passing gate, and nothing is sent. */
  lemma OptionFailureSendsNothing(chat: string, gate: Outcome, tomorrow: string,
                                  slots: seq<Outcome>, k: int)
    requires HasReading(gate) && |slots| == HourCount
    requires 0 <= k < HourCount && slots[k].Raised?
    requires forall j :: 0 <= j < k ==> slots[j].Returned?
    ensures PollJob(chat, gate, Ok(tomorrow), slots) == JobRun([], Some(slots[k].error))
  {
    LabelsFirstError(slots, FirstHour, Label, k);
  }
}
