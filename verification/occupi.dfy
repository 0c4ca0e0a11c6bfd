/**
 * The waiting-queue bot of occupi.py. A chat user sends one of the tokens
 * `?` (query the status), `!` (join the queue) or `--` (meant to leave it);
 * the bot answers on the channel the token came from. The queue is the
 * module-level list `stack`; posting a message is recorded in an outbound
 * log of (text, channel) pairs instead of being sent over the network.
 *
 * The specification functions below work on values (`Session`); the class
 * `Bot` holds the same state in fields and its methods follow the source
 * statement by statement, each proved equal to its specification function.
 */
module Occupi {
  import opened Wrappers
  import opened Text

  /** One call of `post_message(message, channel)`. */
  datatype Post = Post(text: string, channel: string)

  /** One event of a batch read from the real-time connection: its `type`, `user`, `text` and `channel`. */
  datatype Event = Event(kind: string, user: string, text: string, channel: string)

  /** The bot's mutable state: the waiting queue and every message posted so far. */
  datatype Session = Session(stack: seq<string>, outbox: seq<Post>)

  predicate NoDuplicates<T(==)>(s: seq<T>) {
    forall i, j :: 0 <= i < j < |s| ==> s[i] != s[j]
  }

  // ---------------------------------------------------------------------
  // _get_index
  // ---------------------------------------------------------------------

  /** `list.index(entry)`, with the `ValueError` of an absent entry turned into `None`. */
  function GetIndex<T(==)>(list: seq<T>, entry: T): (r: Option<nat>)
    ensures r.None? <==> entry !in list
    ensures r.Some? ==> r.value < |list| && list[r.value] == entry
    ensures r.Some? ==> forall j :: 0 <= j < r.value ==> list[j] != entry
  {
    if |list| == 0 then None
    else if list[0] == entry then Some(0)
    else match GetIndex(list[1..], entry)
      case None => None
      case Some(i) => Some(i + 1)
  }

  /** In a queue without duplicates, every entry is found at its own index. */
  lemma GetIndexOfDistinct<T>(list: seq<T>, k: nat)
    requires NoDuplicates(list) && k < |list|
    ensures GetIndex(list, list[k]) == Some(k)
  {
  }

  // ---------------------------------------------------------------------
  // query_status
  // ---------------------------------------------------------------------

  const Occupied := "Room is currently occupied,"
  const JoinPrompt := "Press \"!\" to join the queue."
  const PositionLead := "You are in position "

  /** How long the queue is, after "and the queue is ". */
  function Amount(n: nat): string {
    if n == 0 then "empty." else Decimal(n) + " people long."
  }

  /** The second part of the status: "and the queue is empty." or "and the queue is N people long.". */
  function LengthPhrase(n: nat): string {
    "and the queue is " + Amount(n)
  }

  /** The third part of the status: the requester's 1-based position, or the call to action. */
  function RankPhrase(rank: Option<nat>): string {
    match rank
    case None => JoinPrompt
    case Some(p) => PositionLead + Decimal(p) + "."
  }

  /** The rank `query_status` reports: the 1-based position of the first occurrence, if any. */
  function Rank(stack: seq<string>, user: string): (r: Option<nat>)
    ensures r.None? <==> user !in stack
    ensures r.Some? ==> 1 <= r.value <= |stack| && stack[r.value - 1] == user
    ensures r.Some? ==> user !in stack[..r.value - 1]
  {
    match GetIndex(stack, user)
    case None => None
    case Some(i) => Some(i + 1)
  }

  /** The three parts `query_status` appends to its `message` list. */
  function StatusParts(stack: seq<string>, user: string): seq<string> {
    [Occupied, LengthPhrase(|stack|), RankPhrase(Rank(stack, user))]
  }

  /** The text `query_status` posts. */
  function StatusText(stack: seq<string>, user: string): string {
    JoinWith(" ", StatusParts(stack, user))
  }

  const StatusHead := Occupied + " and the queue is "

  /** Reads `Amount(n) + " "` off the front of `s`: gives n and what follows. */
  function ReadAmount(s: string): Option<(nat, string)> {
    if "empty. " <= s then Some((0, s[|"empty. "|..]))
    else if NumberThen(s, " people long. ") && s[0] != '0' then Some(ReadNumberThen(s, " people long. "))
    else None
  }

  /** Reads a whole `RankPhrase` back. */
  function ReadRank(s: string): Option<Option<nat>> {
    if s == JoinPrompt then Some(None)
    else if PositionLead <= s && NumberThen(s[|PositionLead|..], ".")
            && ReadNumberThen(s[|PositionLead|..], ".").1 == ""
    then Some(Some(ReadNumberThen(s[|PositionLead|..], ".").0))
    else None
  }

  /**
   * Reads a status text back: the queue length it announces and the rank it
   * reports, `None` for the call to action. Answers `None` for any other text.
   */
  function ReadStatus(text: string): Option<(nat, Option<nat>)> {
    if !(StatusHead <= text) then None
    else match ReadAmount(text[|StatusHead|..])
      case None => None
      case Some(found) =>
        match ReadRank(found.1)
        case None => None
        case Some(rank) => Some((found.0, rank))
  }

  lemma ReadAmountBack(n: nat, tail: string)
    ensures ReadAmount(Amount(n) + " " + tail) == Some((n, tail))
  {
    var s := Amount(n) + " " + tail;
    if n == 0 {
      assert s == "empty. " + tail;
    } else {
      assert s == Decimal(n) + " people long. " + tail;
      ReadNumberThenDecimal(n, " people long. ", tail);
      assert s[0] == Decimal(n)[0] && IsDigit(s[0]);
    }
  }

  /** Only the `empty.` wording reads as 0, so the two wordings of `Amount` are told apart. */
  lemma ReadAmountZeroIsEmpty(s: string)
    requires ReadAmount(s).Some? && ReadAmount(s).value.0 == 0
    ensures "empty. " <= s && ReadAmount(s).value.1 == s[|"empty. "|..]
  {
    if !("empty. " <= s) {
      var d := DigitPrefix(s);
      assert d[0] == s[0];
      ParseDecimalPositive(d);
    }
  }

  lemma ReadRankBack(rank: Option<nat>)
    ensures ReadRank(RankPhrase(rank)) == Some(rank)
  {
    match rank
    case None =>
    case Some(p) =>
      var s := RankPhrase(rank);
      assert s[0] == 'Y' && JoinPrompt[0] == 'P';
      assert s == PositionLead + (Decimal(p) + "." + "");
      assert s[|PositionLead|..] == Decimal(p) + "." + "";
      ReadNumberThenDecimal(p, ".", "");
  }

  lemma StatusShape(amount: string, tail: string)
    ensures Occupied + " " + ("and the queue is " + amount) + " " + tail == StatusHead + (amount + " " + tail)
  {
    assert Occupied + " " + "and the queue is " == StatusHead;
  }

  /**
   * The status text always says the room is occupied, and from it one reads
   * back exactly the queue length and the requester's rank (or that they are
   * not queued).
   */
  lemma StatusTextReadsBack(stack: seq<string>, user: string)
    ensures StatusHead <= StatusText(stack, user)
    ensures ReadStatus(StatusText(stack, user)) == Some((|stack|, Rank(stack, user)))
  {
    var tail := RankPhrase(Rank(stack, user));
    JoinWithThree(" ", Occupied, LengthPhrase(|stack|), tail);
    StatusShape(Amount(|stack|), tail);
    var text := StatusText(stack, user);
    assert text[|StatusHead|..] == Amount(|stack|) + " " + tail;
    ReadAmountBack(|stack|, tail);
    ReadRankBack(Rank(stack, user));
  }

  // ---------------------------------------------------------------------
  // add_me_to_stack
  // ---------------------------------------------------------------------

  const AddedYou := "Added you to the queue."
  const AlreadyIn := "You are already in the queue."

  function PositionOutOf(p: nat, n: nat): string {
    PositionLead + Decimal(p) + " out of " + Decimal(n) + "."
  }

  /** What `add_me_to_stack` leaves behind: the new queue, whether it added the user, and the position it reports. */
  datatype JoinReport = JoinReport(stack: seq<string>, added: bool, position: nat)

  /**
   * `add_me_to_stack` on a queue: an absent user is appended and then looked
   * up again; a present user leaves the queue as it is.
   */
  function Join(stack: seq<string>, user: string): (r: JoinReport)
    ensures r.added <==> user !in stack
    ensures r.added ==> r.stack == stack + [user] && r.position == |r.stack|
    ensures !r.added ==> r.stack == stack && Rank(stack, user) == Some(r.position)
    ensures 1 <= r.position <= |r.stack| && r.stack[r.position - 1] == user
  {
    match GetIndex(stack, user)
    case None =>
      var grown := stack + [user];
      assert grown[|stack|] == user;
      JoinReport(grown, true, GetIndex(grown, user).value + 1)
    case Some(i) =>
      JoinReport(stack, false, i + 1)
  }

  /** The text `add_me_to_stack` posts. */
  function JoinText(r: JoinReport): string {
    JoinWith(" ", [if r.added then AddedYou else AlreadyIn, PositionOutOf(r.position, |r.stack|)])
  }

  /** Joining twice has the effect on the queue of joining once; the second answer reports the same position. */
  lemma JoinIdempotent(stack: seq<string>, user: string)
    ensures Join(Join(stack, user).stack, user).stack == Join(stack, user).stack
    ensures !Join(Join(stack, user).stack, user).added
    ensures Join(Join(stack, user).stack, user).position == Join(stack, user).position
  {
    var first := Join(stack, user);
    if first.added {
      assert first.stack[..first.position - 1] == stack;
    }
  }

  /** After joining, a status query by the same user reports the position the join answer gave. */
  lemma JoinThenStatus(stack: seq<string>, user: string)
    ensures Rank(Join(stack, user).stack, user) == Some(Join(stack, user).position)
  {
    var r := Join(stack, user);
    if r.added {
      assert r.stack[..r.position - 1] == stack;
    }
  }

  /** Joining never introduces a duplicate. */
  lemma JoinKeepsNoDuplicates(stack: seq<string>, user: string)
    requires NoDuplicates(stack)
    ensures NoDuplicates(Join(stack, user).stack)
  {
  }

  /** Reads a whole `PositionOutOf(p, n)` back. */
  function ReadPositionOutOf(s: string): Option<(nat, nat)> {
    if !(PositionLead <= s) || !NumberThen(s[|PositionLead|..], " out of ") then None
    else
      var (p, tail) := ReadNumberThen(s[|PositionLead|..], " out of ");
      if NumberThen(tail, ".") && ReadNumberThen(tail, ".").1 == ""
      then Some((p, ReadNumberThen(tail, ".").0))
      else None
  }

  /**
   * Reads a join answer back: whether the user was added, the position and
   * the queue size it reports. Answers `None` for any other text.
   */
  function ReadJoin(text: string): Option<(bool, nat, nat)> {
    var added := if AddedYou + " " <= text then Some(true) else if AlreadyIn + " " <= text then Some(false) else None;
    match added
    case None => None
    case Some(wasAdded) =>
      var lead := if wasAdded then AddedYou else AlreadyIn;
      match ReadPositionOutOf(text[|lead| + 1..])
      case None => None
      case Some(found) => Some((wasAdded, found.0, found.1))
  }

  lemma ReadPositionOutOfBack(p: nat, n: nat)
    ensures ReadPositionOutOf(PositionOutOf(p, n)) == Some((p, n))
  {
    var tail := Decimal(n) + "." + "";
    PositionOutOfAfterLead(p, n);
    ReadNumberThenDecimal(p, " out of ", tail);
    ReadNumberThenDecimal(n, ".", "");
  }

  /** What follows the lead of `PositionOutOf(p, n)`, grouped as the reader consumes it. */
  lemma PositionOutOfAfterLead(p: nat, n: nat)
    ensures PositionLead <= PositionOutOf(p, n)
    ensures PositionOutOf(p, n)[|PositionLead|..] == Decimal(p) + " out of " + (Decimal(n) + "." + "")
  {
    var s := PositionOutOf(p, n);
    var rest := Decimal(p) + " out of " + (Decimal(n) + "." + "");
    assert s == PositionLead + rest;
  }

  /** The join answer tells whether the user was added, their position and the queue size. */
  lemma JoinTextReadsBack(r: JoinReport)
    ensures ReadJoin(JoinText(r)) == Some((r.added, r.position, |r.stack|))
  {
    var body := PositionOutOf(r.position, |r.stack|);
    ReadPositionOutOfBack(r.position, |r.stack|);
    if r.added {
      JoinWithTwo(" ", AddedYou, body);
      ReadJoinAfterLead(true, body);
    } else {
      JoinWithTwo(" ", AlreadyIn, body);
      ReadJoinAfterLead(false, body);
    }
  }

  /** `ReadJoin` recognises the lead sentence and reads the rest of the answer as a position report. */
  lemma ReadJoinAfterLead(added: bool, body: string)
    ensures var text := (if added then AddedYou else AlreadyIn) + " " + body;
      ReadJoin(text) == match ReadPositionOutOf(body)
        case None => None
        case Some(found) => Some((added, found.0, found.1))
  {
    var lead := if added then AddedYou else AlreadyIn;
    var text := lead + " " + body;
    assert text[|lead| + 1..] == body;
    if added {
      assert AddedYou + " " <= text;
    } else {
      assert text[0] == 'Y' && (AddedYou + " ")[0] == 'A';
      assert AlreadyIn + " " <= text;
    }
  }


  // ---------------------------------------------------------------------
  // commands, command_list, handle_message
  // ---------------------------------------------------------------------

  /** What the `commands` table binds a token to: one of the two handlers, or a plain string. */
  datatype Handler = QueryStatusHandler | AddMeToStackHandler | Str(value: string)

  /** `list(commands)`: the tokens in the order the table lists them. */
  const CommandList: seq<string> := ["?", "!", "--"]

  const Commands: map<string, Handler> :=
    map["?" := QueryStatusHandler, "!" := AddMeToStackHandler, "--" := Str("remove_me_from_stack")]

  /** What calling a `str` raises. */
  const NotCallable := "TypeError: 'str' object is not callable"

  const UnknownHead := "Received unknown request: \""
  /** The closing quote, then the options as Python renders `command_list`. */
  const UnknownTail := "\". Options are ['?', '!', '--']"

  function UnknownText(message: string): string {
    UnknownHead + message + UnknownTail
  }

  /** Recovers the token an "unknown request" answer quotes. */
  function ReadUnknown(text: string): Option<string> {
    if |UnknownHead| + |UnknownTail| <= |text| && UnknownHead <= text && EndsWith(text, UnknownTail)
    then Some(text[|UnknownHead|..|text| - |UnknownTail|])
    else None
  }

  lemma UnknownTextReadsBack(message: string)
    ensures ReadUnknown(UnknownText(message)) == Some(message)
  {
    var text := UnknownText(message);
    assert text[|text| - |UnknownTail|..] == UnknownTail;
    assert text[|UnknownHead|..|text| - |UnknownTail|] == message;
  }

  /** The outcome of `handle_message`: the new state, or the exception it raises (nothing changed then). */
  datatype Handled = Handled(session: Session) | Raised(error: string)

  /** `handle_message(message, user, channel)` on a state. */
  function Handle(s: Session, message: string, user: string, channel: string): Handled {
    if message in CommandList then
      match Commands[message]
      case QueryStatusHandler =>
        Handled(Session(s.stack, s.outbox + [Post(StatusText(s.stack, user), channel)]))
      case AddMeToStackHandler =>
        var r := Join(s.stack, user);
        Handled(Session(r.stack, s.outbox + [Post(JoinText(r), channel)]))
      case Str(_) =>
        Raised(NotCallable)
    else
      Handled(Session(s.stack, s.outbox + [Post(UnknownText(message), channel)]))
  }

  /** The table lookup of `handle_message`, token by token. */
  lemma HandleByToken(s: Session, message: string, user: string, channel: string)
    ensures Handle(s, message, user, channel)
         == if message == "?" then Handled(Session(s.stack, s.outbox + [Post(StatusText(s.stack, user), channel)]))
            else if message == "!" then
              Handled(Session(Join(s.stack, user).stack, s.outbox + [Post(JoinText(Join(s.stack, user)), channel)]))
            else if message == "--" then Raised(NotCallable)
            else Handled(Session(s.stack, s.outbox + [Post(UnknownText(message), channel)]))
  {
    assert message in CommandList <==> message == "?" || message == "!" || message == "--";
  }

  /** What an answer means, independently of its wording. */
  datatype Reply =
    | StatusReply(length: nat, rank: Option<nat>)
    | JoinReply(added: bool, position: nat, size: nat)
    | UnknownReply(token: string)

  /** The answer to `message` that a user should get from a queue `stack`. */
  function Expected(stack: seq<string>, message: string, user: string): Reply {
    if message == "?" then StatusReply(|stack|, Rank(stack, user))
    else if message == "!" then
      if user in stack then JoinReply(false, Rank(stack, user).value, |stack|)
      else JoinReply(true, |stack| + 1, |stack| + 1)
    else UnknownReply(message)
  }

  /**
   * `handle_message` posts exactly one message, on the event's channel, for
   * every token but `--`; that message carries the expected answer. Only `!`
   * may change the queue. The token `--` raises and posts nothing.
   */
  lemma HandleAnswersOnce(s: Session, message: string, user: string, channel: string)
    ensures Handle(s, message, user, channel).Raised? <==> message == "--"
    ensures Handle(s, message, user, channel).Handled? ==>
      var t := Handle(s, message, user, channel).session;
      && |t.outbox| == |s.outbox| + 1
      && t.outbox[..|s.outbox|] == s.outbox
      && t.outbox[|s.outbox|].channel == channel
      && (message != "!" ==> t.stack == s.stack)
      && match Expected(s.stack, message, user)
         case StatusReply(n, rank) => ReadStatus(t.outbox[|s.outbox|].text) == Some((n, rank))
         case JoinReply(added, p, size) => ReadJoin(t.outbox[|s.outbox|].text) == Some((added, p, size))
         case UnknownReply(token) => ReadUnknown(t.outbox[|s.outbox|].text) == Some(token)
  {
    HandleByToken(s, message, user, channel);
    var o := s.outbox;
    if message == "?" {
      var post := Post(StatusText(s.stack, user), channel);
      assert (o + [post])[|o|] == post && (o + [post])[..|o|] == o;
      StatusTextReadsBack(s.stack, user);
    } else if message == "!" {
      var r := Join(s.stack, user);
      var post := Post(JoinText(r), channel);
      assert (o + [post])[|o|] == post && (o + [post])[..|o|] == o;
      assert Expected(s.stack, message, user) == JoinReply(r.added, r.position, |r.stack|);
      JoinTextReadsBack(r);
    } else if message != "--" {
      var post := Post(UnknownText(message), channel);
      assert (o + [post])[|o|] == post && (o + [post])[..|o|] == o;
      UnknownTextReadsBack(message);
    }
  }

  /** No handler ever removes from the queue: it only grows at its end, by at most one. */
  lemma HandleOnlyAppends(s: Session, message: string, user: string, channel: string)
    requires Handle(s, message, user, channel).Handled?
    ensures s.stack <= Handle(s, message, user, channel).session.stack
    ensures |Handle(s, message, user, channel).session.stack| <= |s.stack| + 1
    ensures NoDuplicates(s.stack) ==> NoDuplicates(Handle(s, message, user, channel).session.stack)
  {
  }

  // ---------------------------------------------------------------------
  // The event filter of `run`
  // ---------------------------------------------------------------------

  /** `run` handles an event only if it is a message that the bot itself did not send. */
  predicate Relevant(e: Event, botId: string) {
    e.kind == "message" && e.user != botId
  }

  function RelevantEvents(events: seq<Event>, botId: string): (r: seq<Event>)
    ensures |r| <= |events|
    ensures forall k :: 0 <= k < |r| ==> Relevant(r[k], botId)
    ensures forall e :: e in r <==> e in events && Relevant(e, botId)
  {
    if events == [] then []
    else if Relevant(events[0], botId) then [events[0]] + RelevantEvents(events[1..], botId)
    else RelevantEvents(events[1..], botId)
  }

  /** The filter keeps every copy of a relevant event and no copy of any other. */
  lemma {:induction false} RelevantEventsCount(events: seq<Event>, botId: string, e: Event)
    ensures multiset(RelevantEvents(events, botId))[e] == if Relevant(e, botId) then multiset(events)[e] else 0
  {
    if events != [] {
      assert events == [events[0]] + events[1..];
      RelevantEventsCount(events[1..], botId, e);
    }
  }

  /** The filter keeps the batch's order: filtering two halves and putting them together is filtering the whole. */
  lemma {:induction false} RelevantEventsInOrder(first: seq<Event>, second: seq<Event>, botId: string)
    ensures RelevantEvents(first + second, botId) == RelevantEvents(first, botId) + RelevantEvents(second, botId)
  {
    if first != [] {
      var whole := first + second;
      assert whole[0] == first[0] && whole[1..] == first[1..] + second;
      RelevantEventsInOrder(first[1..], second, botId);
      var rest := RelevantEvents(first[1..], botId) + RelevantEvents(second, botId);
      if Relevant(first[0], botId) {
        calc {
          RelevantEvents(whole, botId);
          [first[0]] + rest;
          ([first[0]] + RelevantEvents(first[1..], botId)) + RelevantEvents(second, botId);
        }
      } else {
        assert RelevantEvents(whole, botId) == rest;
      }
    } else {
      assert first + second == second;
    }
  }

  /** How one batch ends: the state reached, and the exception that escaped `run`, if any. */
  datatype RunResult = RunResult(session: Session, raised: Option<string>)

  /** One batch of `run`'s loop: the events in order, stopping at the first exception. */
  function RunBatch(s: Session, events: seq<Event>, botId: string): RunResult
    decreases |events|
  {
    if events == [] then RunResult(s, None)
    else if !Relevant(events[0], botId) then RunBatch(s, events[1..], botId)
    else match Handle(s, events[0].text, events[0].user, events[0].channel)
      case Raised(e) => RunResult(s, Some(e))
      case Handled(t) => RunBatch(t, events[1..], botId)
  }

  /** A batch of one event: nothing for an event that is skipped, otherwise the outcome of handling it. */
  lemma RunBatchOne(s: Session, e: Event, botId: string)
    ensures RunBatch(s, [e], botId)
         == if !Relevant(e, botId) then RunResult(s, None)
            else if Handle(s, e.text, e.user, e.channel).Raised? then RunResult(s, Some(Handle(s, e.text, e.user, e.channel).error))
            else RunResult(Handle(s, e.text, e.user, e.channel).session, None)
  {
    assert [e][1..] == [];
  }

  /**
   * Events are handled one after another: a batch is its first part followed
   * by its second part, run from the state the first part leaves, unless the
   * first part raised, in which case the second part is never handled.
   */
  lemma {:induction false} RunBatchAppend(s: Session, first: seq<Event>, second: seq<Event>, botId: string)
    decreases |first|
    ensures var r := RunBatch(s, first, botId);
      RunBatch(s, first + second, botId) == if r.raised.Some? then r else RunBatch(r.session, second, botId)
  {
    if first == [] {
      assert first + second == second;
    } else {
      var whole := first + second;
      assert whole[0] == first[0] && whole[1..] == first[1..] + second;
      var e := first[0];
      if !Relevant(e, botId) {
        RunBatchAppend(s, first[1..], second, botId);
      } else {
        var h := Handle(s, e.text, e.user, e.channel);
        if h.Handled? {
          RunBatchAppend(h.session, first[1..], second, botId);
        }
      }
    }
  }

  /** Skipping the bot's own messages and the other event types is all the filter does. */
  lemma {:induction false} RunBatchSkipsIrrelevant(s: Session, events: seq<Event>, botId: string)
    decreases |events|
    ensures RunBatch(s, events, botId) == RunBatch(s, RelevantEvents(events, botId), botId)
  {
    if events != [] {
      if Relevant(events[0], botId) {
        var r := RelevantEvents(events, botId);
        assert r[0] == events[0] && r[1..] == RelevantEvents(events[1..], botId);
        match Handle(s, events[0].text, events[0].user, events[0].channel)
        case Raised(_) =>
        case Handled(t) => RunBatchSkipsIrrelevant(t, events[1..], botId);
      } else {
        RunBatchSkipsIrrelevant(s, events[1..], botId);
      }
    }
  }

  function Tokens(events: seq<Event>): (r: seq<string>)
    ensures |r| == |events| && forall k :: 0 <= k < |r| ==> r[k] == events[k].text
  {
    if events == [] then [] else [events[0].text] + Tokens(events[1..])
  }

  /**
   * Over a batch, the queue only grows at its end and keeps its entries
   * distinct, the log only grows, and the batch stops with an exception
   * exactly when some handled event carries `--`; otherwise every handled
   * event posted exactly one message.
   */
  lemma {:induction false} RunBatchInvariants(s: Session, events: seq<Event>, botId: string)
    ensures var r := RunBatch(s, events, botId);
      && s.stack <= r.session.stack
      && s.outbox <= r.session.outbox
      && (NoDuplicates(s.stack) ==> NoDuplicates(r.session.stack))
      && (r.raised.Some? <==> "--" in Tokens(RelevantEvents(events, botId)))
      && (r.raised.None? ==> |r.session.outbox| == |s.outbox| + |RelevantEvents(events, botId)|)
      && (r.raised.None? ==> AnsweredInOrder(s.outbox, r.session.outbox, RelevantEvents(events, botId)))
  {
    RunBatchOnlyGrows(s, events, botId);
    RunBatchAnswers(s, events, botId);
    RunBatchAnswersInOrder(s, events, botId);
  }

  /** Over a batch the stack and the log only grow at their ends, and the stack keeps its entries distinct. */
  lemma {:induction false} RunBatchOnlyGrows(s: Session, events: seq<Event>, botId: string)
    decreases |events|
    ensures var r := RunBatch(s, events, botId);
      && s.stack <= r.session.stack
      && s.outbox <= r.session.outbox
      && (NoDuplicates(s.stack) ==> NoDuplicates(r.session.stack))
  {
    if events != [] {
      var e := events[0];
      if !Relevant(e, botId) {
        RunBatchOnlyGrows(s, events[1..], botId);
      } else {
        HandleByToken(s, e.text, e.user, e.channel);
        match Handle(s, e.text, e.user, e.channel)
        case Raised(_) =>
        case Handled(t) =>
          HandleOnlyAppends(s, e.text, e.user, e.channel);
          RunBatchOnlyGrows(t, events[1..], botId);
      }
    }
  }

  /** A batch raises exactly when a handled event carries `--`; otherwise each handled event posts once. */
  lemma {:induction false} RunBatchAnswers(s: Session, events: seq<Event>, botId: string)
    decreases |events|
    ensures var r := RunBatch(s, events, botId);
      && (r.raised.Some? <==> "--" in Tokens(RelevantEvents(events, botId)))
      && (r.raised.None? ==> |r.session.outbox| == |s.outbox| + |RelevantEvents(events, botId)|)
  {
    if events != [] {
      var e := events[0];
      if !Relevant(e, botId) {
        RunBatchAnswers(s, events[1..], botId);
      } else {
        var rest := RelevantEvents(events[1..], botId);
        assert RelevantEvents(events, botId) == [e] + rest;
        assert Tokens([e] + rest) == [e.text] + Tokens(rest);
        HandleByToken(s, e.text, e.user, e.channel);
        match Handle(s, e.text, e.user, e.channel)
        case Raised(_) =>
        case Handled(t) =>
          RunBatchAnswers(t, events[1..], botId);
      }
    }
  }
  /** A handled message adds exactly one post to the log, on the event's channel. */
  lemma HandlePostsOnChannel(s: Session, message: string, user: string, channel: string)
    requires Handle(s, message, user, channel).Handled?
    ensures var t := Handle(s, message, user, channel).session;
      && |t.outbox| == |s.outbox| + 1 && s.outbox <= t.outbox && t.outbox[|s.outbox|].channel == channel
  {
    HandleByToken(s, message, user, channel);
  }

  /**
   * A batch that raises nothing answers its handled events in order: the
   * k-th new post goes to the channel of the k-th handled event.
   */
  lemma {:induction false} RunBatchAnswersInOrder(s: Session, events: seq<Event>, botId: string)
    decreases |events|
    ensures var r := RunBatch(s, events, botId);
      r.raised.None? ==> AnsweredInOrder(s.outbox, r.session.outbox, RelevantEvents(events, botId))
  {
    if events != [] {
      var e := events[0];
      if !Relevant(e, botId) {
        RunBatchAnswersInOrder(s, events[1..], botId);
      } else {
        var rest := RelevantEvents(events[1..], botId);
        assert RelevantEvents(events, botId) == [e] + rest;
        var h := Handle(s, e.text, e.user, e.channel);
        if h.Handled? {
          HandlePostsOnChannel(s, e.text, e.user, e.channel);
          RunBatchAnswersInOrder(h.session, events[1..], botId);
          var r := RunBatch(h.session, events[1..], botId);
          if r.raised.None? {
            AnsweredInOrderStep(s.outbox, h.session.outbox, r.session.outbox, e, rest);
          }
        }
      }
    }
  }

  /** `after` extends `before` by one post per handled event, the k-th on the k-th event's channel. */
  predicate AnsweredInOrder(before: seq<Post>, after: seq<Post>, handled: seq<Event>) {
    && before <= after
    && |after| == |before| + |handled|
    && forall k :: 0 <= k < |handled| ==> after[|before| + k].channel == handled[k].channel
  }

  /** One answer on `e`'s channel followed by answers to `rest` in order are answers to `[e] + rest` in order. */
  lemma AnsweredInOrderStep(before: seq<Post>, mid: seq<Post>, after: seq<Post>, e: Event, rest: seq<Event>)
    requires |mid| == |before| + 1 && before <= mid && mid[|before|].channel == e.channel
    requires AnsweredInOrder(mid, after, rest)
    ensures AnsweredInOrder(before, after, [e] + rest)
  {
    var handled := [e] + rest;
    assert after[|before|] == mid[|before|];
    forall k | 0 <= k < |handled|
      ensures after[|before| + k].channel == handled[k].channel
    {
      if k > 0 {
        assert handled[k] == rest[k - 1];
        assert |before| + k == |mid| + (k - 1);
      }
    }
  }




  // ---------------------------------------------------------------------
  // The module state and the functions that change it
  // ---------------------------------------------------------------------

  /** The bot: its own user id, the queue `stack`, and the log of posted messages. */
  class Bot {
    const slackId: string
    var stack: seq<string>
    var outbox: seq<Post>

    constructor (slackId: string)
      ensures this.slackId == slackId && stack == [] && outbox == []
    {
      this.slackId := slackId;
      stack := [];
      outbox := [];
    }

    function State(): Session
      reads this
    {
      Session(stack, outbox)
    }

    method PostMessage(message: string, channel: string)
      modifies this`outbox
      ensures outbox == old(outbox) + [Post(message, channel)]
    {
      outbox := outbox + [Post(message, channel)];
    }

    method QueryStatus(user: string, channel: string)
      modifies this`outbox
      ensures stack == old(stack)
      ensures outbox == old(outbox) + [Post(StatusText(stack, user), channel)]
    {
      var message: seq<string> := [];
      message := message + [Occupied];
      var stackLength := |stack|;
      if stackLength == 0 {
        message := message + ["and the queue is empty."];
      } else {
        message := message + ["and the queue is " + Decimal(stackLength) + " people long."];
      }
      var index := GetIndex(stack, user);
      if index.None? {
        message := message + [JoinPrompt];
      } else {
        message := message + [PositionLead + Decimal(index.value + 1) + "."];
      }
      assert "and the queue is " + "empty." == "and the queue is empty.";
      assert message[1] == LengthPhrase(|stack|);
      assert message[2] == RankPhrase(Rank(stack, user));
      assert message == StatusParts(stack, user);
      PostMessage(JoinWith(" ", message), channel);
    }

    method AddMeToStack(user: string, channel: string)
      modifies this`stack, this`outbox
      ensures stack == Join(old(stack), user).stack
      ensures outbox == old(outbox) + [Post(JoinText(Join(old(stack), user)), channel)]
    {
      var index := GetIndex(stack, user);
      var message: seq<string> := [];
      if index.None? {
        stack := stack + [user];
        message := message + [AddedYou];
        index := GetIndex(stack, user);
      } else {
        message := message + [AlreadyIn];
      }
      message := message + [PositionOutOf(index.value + 1, |stack|)];
      PostMessage(JoinWith(" ", message), channel);
    }

    method HandleMessage(message: string, user: string, channel: string) returns (raised: Option<string>)
      modifies this`stack, this`outbox
      ensures match Handle(old(State()), message, user, channel)
        case Handled(t) => raised.None? && State() == t
        case Raised(e) => raised == Some(e) && State() == old(State())
    {
      raised := None;
      if message in CommandList {
        match Commands[message]
        case QueryStatusHandler => QueryStatus(user, channel);
        case AddMeToStackHandler => AddMeToStack(user, channel);
        case Str(_) => raised := Some(NotCallable);
      } else {
        PostMessage(UnknownText(message), channel);
      }
    }

    /** One batch of events from `rtm_read`, handled in order; an exception ends the batch. */
    method Run(events: seq<Event>) returns (raised: Option<string>)
      modifies this`stack, this`outbox
      ensures RunBatch(old(State()), events, slackId) == RunResult(State(), raised)
    {
      raised := None;
      var i := 0;
      while i < |events|
        invariant 0 <= i <= |events|
        invariant raised.None?
        invariant RunBatch(State(), events[i..], slackId) == RunBatch(old(State()), events, slackId)
      {
        var event := events[i];
        assert events[i..][1..] == events[i + 1..];
        if event.kind == "message" && event.user != slackId {
          raised := HandleMessage(event.text, event.user, event.channel);
          if raised.Some? {
            return;
          }
        }
        i := i + 1;
      }
    }
  }
}
