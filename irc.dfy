/** One IRC channel as SharpIRC's `Channel` class keeps it: the ordered member
    list, the topic, and the reply dispatcher `ProcessReply` that updates them
    and raises the `Joined`, `TopicChanged` and `Message` notifications.

    `Dispatch` is the dispatcher written as a function of the channel's
    state and one reply; `Channel.ProcessReply` is the step-by-step method
    the class runs, proved to agree with it. */
module Irc {
  import opened Strings

  /** A channel member. The `User` class is not part of this model. Two
      assumptions are taken about it: its equality compares nicknames, and
      `new User(client, name)` takes `name` as its nickname unchanged. So a
      member is identified by, and modelled as, its nickname. */
  datatype User = User(nick: string)

  /** The topic: its text and the member who last changed it, when known. */
  datatype Topic = Topic(text: string, changeUser: Option<User>)

  /** `new Topic()`: empty text, nobody recorded as having changed it. */
  function EmptyTopic(): Topic {
    Topic("", None)
  }

  /** `new Topic(text)`: the constructor leaves `ChangeUser` unset, that is null. */
  function TopicWithText(text: string): Topic {
    Topic(text, None)
  }

  /** One reply as the client's parser hands it over. */
  datatype Reply = Reply(command: string, prefix: string, params: seq<string>, trailing: string)

  /** The payload of the `Message` notification. */
  datatype ChatMessage = ChatMessage(user: User, text: string)

  /** The notifications `ProcessReply` raises, and the one diagnostic line it
      writes to the client's logger. */
  datatype Event =
    | Joined
    | TopicChanged(topic: Topic)
    | Message(message: ChatMessage)
    | Logged(line: string)

  /** The exceptions `ProcessReply` can throw. */
  datatype Fault =
    | ParamMissing(index: nat)  // `reply.Params[index]` with too few params
    | PrefixWithoutBang         // `Prefix.Substring(0, Prefix.IndexOf('!'))` with no '!'
    | NoSuchMember              // `Users.First(...)` with no matching member

  datatype Result<T> = Ok(value: T) | Err(fault: Fault)

  /** The numeric reply codes the dispatcher handles. The `ReplyCode`
      enumeration is not part of this model; these are the values RFC 2812
      (section 5.1) gives to RPL_NOTOPIC, RPL_TOPIC and RPL_NAMREPLY, and the
      customary value of the RPL_TOPICWHOTIME extension. */
  const RplNoTopic: int := 331
  const RplTopic: int := 332
  const RplTopicSetBy: int := 333
  const RplNameReply: int := 353

  // ---------------------------------------------------------------------
  // Pure pieces of ProcessReply
  // ---------------------------------------------------------------------

  /** `prefix.Substring(0, prefix.IndexOf('!'))`: the nick before the first
      '!' of a `nick!user@host` prefix; absent when there is no '!', where
      the source's Substring throws. */
  function NickOf(prefix: string): (nick: Option<string>)
    ensures nick.Some? <==> '!' in prefix
    ensures nick.Some? ==> '!' !in nick.value && nick.value + "!" <= prefix
  {
    var bang := IndexOf(prefix, '!');
    if bang < 0 then None
    else
      assert prefix[..bang] + "!" == prefix[..bang + 1];
      Some(prefix[..bang])
  }

  /** The position of the first member whose nick is `nick`, or -1
      (the search behind `Users.FirstOrDefault(x => x.Nick == nick)`). */
  function IndexOfNick(users: seq<User>, nick: string): (i: int)
    ensures -1 <= i < |users|
    ensures i == -1 <==> (forall k :: 0 <= k < |users| ==> users[k].nick != nick)
    ensures 0 <= i ==> users[i].nick == nick && forall k :: 0 <= k < i ==> users[k].nick != nick
  {
    if users == [] then -1
    else if users[0].nick == nick then 0
    else
      var k := IndexOfNick(users[1..], nick);
      if k == -1 then -1 else k + 1
  }

  /** `Users.First(x => x.Nick == prefix.Substring(0, prefix.IndexOf('!')))`.
      The nick is cut out of the prefix inside the predicate, once per member
      tried, so an empty member list fails with `NoSuchMember` before the
      prefix is ever looked at. */
  function FirstWithNick(users: seq<User>, prefix: string): (r: Result<User>)
    ensures users == [] ==> r == Err(NoSuchMember)
    ensures users != [] && '!' !in prefix ==> r == Err(PrefixWithoutBang)
    ensures NickOf(prefix).Some? ==>
      var i := IndexOfNick(users, NickOf(prefix).value);
      if i < 0 then r == Err(NoSuchMember) else r == Ok(users[i])
  {
    if users == [] then Err(NoSuchMember)
    else match NickOf(prefix)
      case None => Err(PrefixWithoutBang)
      case Some(nick) =>
        if users[0].nick == nick then Ok(users[0])
        else FirstWithNick(users[1..], prefix)
  }

  /** One member added by a names page: `Users.Add(user)` unless
      `Users.Contains(user)`. */
  function AddName(users: seq<User>, token: string): seq<User> {
    if User(token) in users then users else users + [User(token)]
  }

  /** The names page `tokens` applied to `users`, token by token, each token
      checked against the list as it stands after the earlier ones. */
  function AddNames(users: seq<User>, tokens: seq<string>): seq<User> {
    if tokens == [] then users
    else AddName(AddNames(users, tokens[..|tokens| - 1]), tokens[|tokens| - 1])
  }

  // ---------------------------------------------------------------------
  // The dispatcher as a function
  // ---------------------------------------------------------------------

  /** What `ProcessReply` can change. */
  datatype State = State(users: seq<User>, topic: Option<Topic>)

  /** How one call of `ProcessReply` ends: it returns with a new state and the
      notifications raised, or throws. Nothing is changed and nothing raised
      before any of its exceptions. */
  datatype Outcome = Done(after: State, events: seq<Event>) | Threw(fault: Fault)

  /** The first switch, on the textual commands: it either returns from
      `ProcessReply` at once or falls through to the numeric codes. */
  datatype TextStep = Return(outcome: Outcome) | FallThrough(after: State, events: seq<Event>)

  function TextCommand(name: string, s: State, r: Reply): TextStep {
    if r.command == "JOIN" then
      if |r.params| <= 0 || r.params[0] != name then Return(Done(s, []))
      else FallThrough(s, [Joined])
    else if r.command == "PRIVMSG" then
      if |r.params| == 0 || r.params[0] != name then Return(Done(s, []))
      else match FirstWithNick(s.users, r.prefix)
        case Err(f) => Return(Threw(f))
        case Ok(user) => FallThrough(s, [Message(ChatMessage(user, r.trailing))])
    else if r.command == "QUIT" then
      match NickOf(r.prefix)
      case None => Return(Threw(PrefixWithoutBang))
      case Some(nick) =>
        var i := IndexOfNick(s.users, nick);
        if i < 0 then Return(Done(s, []))
        else FallThrough(s.(users := s.users[..i] + s.users[i + 1..]), [])
    else FallThrough(s, [])
  }

  /** The second switch, on the numeric reply code `code`. */
  function NumericReply(name: string, s: State, events: seq<Event>, r: Reply, code: int): Outcome {
    if code == RplTopic then
      if |r.params| <= 1 then Threw(ParamMissing(1))
      else if r.params[1] != name then Done(s, events)
      else
        var topic := TopicWithText(r.trailing);
        Done(s.(topic := Some(topic)), events + [TopicChanged(topic)])
    else if code == RplTopicSetBy then
      if |r.params| <= 1 then Threw(ParamMissing(1))
      else if r.params[1] != name then Done(s, events)
      else if |r.params| <= 2 then Threw(ParamMissing(2))
      else Done(s, events + [Logged("Topic set by " + r.params[2])])
    else if code == RplNameReply then
      Done(s.(users := AddNames(s.users, Split(r.trailing))), events)
    else if code == RplNoTopic then
      Done(s.(topic := Some(EmptyTopic())), events)
    else Done(s, events)
  }

  /** `ProcessReply` for the channel called `name` in state `s`. */
  function Dispatch(name: string, s: State, r: Reply): Outcome {
    match TextCommand(name, s, r)
    case Return(outcome) => outcome
    case FallThrough(s', events) =>
      match TryParseInt32(r.command)
      case None => Done(s', events)
      case Some(code) => NumericReply(name, s', events, r, code)
  }

  // ---------------------------------------------------------------------
  // The channel object
  // ---------------------------------------------------------------------

  class Channel {
    const name: string
    const key: string
    var isConnected: bool
    /** `Users`, in insertion order. */
    var users: seq<User>
    /** `Topic`; null until the first topic reply. */
    var topic: Option<Topic>

    function Current(): State
      reads this
    {
      State(users, topic)
    }

    constructor (name: string, key: string := "")
      ensures this.name == name && this.key == key
      ensures !isConnected && users == [] && topic == None
    {
      this.name := name;
      this.key := key;
      isConnected := false;
      users := [];
      topic := None;
    }

    /** Applies one reply. Returns the notifications raised, in order, or the
        exception thrown; the new state is what `Dispatch` says. */
    method ProcessReply(reply: Reply) returns (events: seq<Event>, fault: Option<Fault>)
      modifies this
      ensures isConnected == old(isConnected)
      ensures Dispatch(name, old(Current()), reply) ==
        if fault.Some? then Threw(fault.value) else Done(Current(), events)
      ensures fault.Some? ==> Current() == old(Current()) && events == []
    {
      var proceed;
      events, fault, proceed := ProcessTextCommand(reply);
      if !proceed {
        return;
      }
      var code := TryParseInt32(reply.command);
      if code.None? {
        return;
      }
      events, fault := ProcessNumericReply(reply, code.value, events);
    }

    /** The switch on JOIN, PRIVMSG and QUIT; `proceed` is false where the
        source returns and true where it breaks out to the numeric codes. */
    method ProcessTextCommand(reply: Reply) returns (events: seq<Event>, fault: Option<Fault>, proceed: bool)
      modifies this
      ensures isConnected == old(isConnected)
      ensures match TextCommand(name, old(Current()), reply)
        case Return(Done(after, raised)) =>
          !proceed && fault == None && Current() == after && events == raised
        case Return(Threw(f)) =>
          !proceed && fault == Some(f) && Current() == old(Current()) && events == []
        case FallThrough(after, raised) =>
          proceed && fault == None && Current() == after && events == raised
    {
      events, fault, proceed := [], None, false;
      if reply.command == "JOIN" {
        if |reply.params| <= 0 || reply.params[0] != name {
          return;
        }
        events := events + [Joined];
      } else if reply.command == "PRIVMSG" {
        if |reply.params| == 0 || reply.params[0] != name {
          return;
        }
        var first := FirstWithNick(users, reply.prefix);
        if first.Err? {
          fault := Some(first.fault);
          return;
        }
        events := events + [Message(ChatMessage(first.value, reply.trailing))];
      } else if reply.command == "QUIT" {
        var nick := NickOf(reply.prefix);
        if nick.None? {
          fault := Some(PrefixWithoutBang);
          return;
        }
        var i := IndexOfNick(users, nick.value);
        if i < 0 {
          return;
        }
        users := users[..i] + users[i + 1..];
      }
      proceed := true;
    }

    /** The switch on the numeric reply code `code`, after the textual switch
        raised `raised`. */
    method ProcessNumericReply(reply: Reply, code: int, raised: seq<Event>) returns (events: seq<Event>, fault: Option<Fault>)
      modifies this
      ensures isConnected == old(isConnected)
      ensures match NumericReply(name, old(Current()), raised, reply, code)
        case Done(after, all) => fault == None && Current() == after && events == all
        case Threw(f) => fault == Some(f) && Current() == old(Current()) && events == []
    {
      events, fault := raised, None;
      if code == RplTopic {
        if |reply.params| <= 1 {
          events, fault := [], Some(ParamMissing(1));
          return;
        }
        if reply.params[1] != name {
          return;
        }
        topic := Some(TopicWithText(reply.trailing));
        events := events + [TopicChanged(topic.value)];
      } else if code == RplTopicSetBy {
        if |reply.params| <= 1 {
          events, fault := [], Some(ParamMissing(1));
          return;
        }
        if reply.params[1] != name {
          return;
        }
        if |reply.params| <= 2 {
          events, fault := [], Some(ParamMissing(2));
          return;
        }
        events := events + [Logged("Topic set by " + reply.params[2])];
      } else if code == RplNameReply {
        AddNamesInPlace(Split(reply.trailing));
      } else if code == RplNoTopic {
        topic := Some(EmptyTopic());
      }
    }

    /** `foreach` token of a names page not yet in `Users`: `Users.Add`. */
    method AddNamesInPlace(tokens: seq<string>)
      modifies this
      ensures users == AddNames(old(users), tokens)
      ensures topic == old(topic) && isConnected == old(isConnected)
    {
      var k := 0;
      while k < |tokens|
        invariant 0 <= k <= |tokens|
        invariant users == AddNames(old(users), tokens[..k])
        invariant topic == old(topic) && isConnected == old(isConnected)
      {
        assert tokens[..k + 1][..k] == tokens[..k];
        var user := User(tokens[k]);
        if user !in users {
          users := users + [user];
        }
        k := k + 1;
      }
      assert tokens[..k] == tokens;
    }
  }
}
