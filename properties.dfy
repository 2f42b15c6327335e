/** What `ProcessReply` promises, stated and proved about `Irc.Dispatch`:
    one lemma per command of the dispatch table, the exact effect of QUIT and
    of a names page, and the invariant that the member list stays free of
    duplicate nicknames. */
module ChannelProperties {
  import opened Strings
  import opened Irc

  /** No nickname appears twice in the member list. */
  predicate Distinct(users: seq<User>) {
    forall i, j :: 0 <= i < j < |users| ==> users[i] != users[j]
  }

  // ---------------------------------------------------------------------
  // The textual commands never reach the numeric table
  // ---------------------------------------------------------------------

  lemma TextCommandsAreNotNumeric(command: string)
    requires TryParseInt32(command).Some?
    ensures command != "JOIN" && command != "PRIVMSG" && command != "QUIT"
  {
    if command == "JOIN" || command == "PRIVMSG" || command == "QUIT" {
      TryParseRejectsLetters(command, 1);
      assert false;
    }
  }

  /** A numeric reply goes straight to the numeric table. */
  lemma NumericDispatch(name: string, s: State, r: Reply, code: int)
    requires TryParseInt32(r.command) == Some(code)
    ensures Dispatch(name, s, r) == NumericReply(name, s, [], r, code)
  {
    TextCommandsAreNotNumeric(r.command);
    assert TextCommand(name, s, r) == FallThrough(s, []);
  }

  /** A command that is not a number ends after the textual switch. */
  lemma TextDispatch(name: string, s: State, r: Reply)
    requires TryParseInt32(r.command) == None
    ensures Dispatch(name, s, r) == match TextCommand(name, s, r)
      case Return(outcome) => outcome
      case FallThrough(after, events) => Done(after, events)
  {
  }

  // ---------------------------------------------------------------------
  // Nick extraction
  // ---------------------------------------------------------------------

  /** The nick of `nick!user@host` is `nick`. */
  lemma NickOfPrefix(nick: string, rest: string)
    requires '!' !in nick
    ensures NickOf(nick + "!" + rest) == Some(nick)
  {
    var prefix := nick + "!" + rest;
    assert prefix[|nick|] == '!';
    assert prefix[..|nick|] == nick;
  }

  // ---------------------------------------------------------------------
  // One lemma per entry of the dispatch table
  // ---------------------------------------------------------------------

  /** JOIN for another channel (or with no channel) changes and raises
      nothing; JOIN for this channel raises one `Joined` and changes nothing
      (it neither adds the joining user nor touches the topic). */
  lemma JoinReply(name: string, s: State, r: Reply)
    requires r.command == "JOIN"
    ensures |r.params| == 0 || r.params[0] != name ==> Dispatch(name, s, r) == Done(s, [])
    ensures |r.params| > 0 && r.params[0] == name ==> Dispatch(name, s, r) == Done(s, [Joined])
  {
    TryParseRejectsLetters(r.command, 0);
    TextDispatch(name, s, r);
  }

  /** PRIVMSG for another channel changes and raises nothing. For this
      channel it raises exactly one `Message` from the member whose nick is
      the prefix up to its first '!', carrying the trailing text; with no such
      member, or no '!', it throws and raises nothing. */
  lemma PrivmsgReply(name: string, s: State, r: Reply)
    requires r.command == "PRIVMSG"
    ensures |r.params| == 0 || r.params[0] != name ==> Dispatch(name, s, r) == Done(s, [])
    ensures |r.params| > 0 && r.params[0] == name ==>
      if s.users == [] then Dispatch(name, s, r) == Threw(NoSuchMember)
      else if '!' !in r.prefix then Dispatch(name, s, r) == Threw(PrefixWithoutBang)
      else
        var nick := NickOf(r.prefix).value;
        if User(nick) in s.users then
          Dispatch(name, s, r) == Done(s, [Message(ChatMessage(User(nick), r.trailing))])
        else Dispatch(name, s, r) == Threw(NoSuchMember)
  {
    TryParseRejectsLetters(r.command, 0);
    TextDispatch(name, s, r);
    if |r.params| > 0 && r.params[0] == name && s.users != [] && '!' in r.prefix {
      var nick := NickOf(r.prefix).value;
      var i := IndexOfNick(s.users, nick);
      if User(nick) in s.users {
        var k :| 0 <= k < |s.users| && s.users[k] == User(nick);
        assert s.users[k].nick == nick;
        assert s.users[i] == User(nick);
      }
    }
  }

  /** QUIT with a prefix lacking '!' throws; QUIT from a nick that is not a
      member changes and raises nothing; otherwise it raises nothing and only
      the member list changes, as `QuitRemovesExactlyOne` describes. */
  lemma QuitReply(name: string, s: State, r: Reply)
    requires r.command == "QUIT"
    ensures '!' !in r.prefix ==> Dispatch(name, s, r) == Threw(PrefixWithoutBang)
    ensures '!' in r.prefix && User(NickOf(r.prefix).value) !in s.users ==>
      Dispatch(name, s, r) == Done(s, [])
    ensures '!' in r.prefix ==>
      Dispatch(name, s, r).Done? && Dispatch(name, s, r).events == [] &&
      Dispatch(name, s, r).after.topic == s.topic
  {
    TryParseRejectsLetters(r.command, 0);
    TextDispatch(name, s, r);
    if '!' in r.prefix {
      var nick := NickOf(r.prefix).value;
      var i := IndexOfNick(s.users, nick);
      if 0 <= i {
        assert s.users[i] == User(nick);
      }
    }
  }

  /** A QUIT from a member removes exactly the first member with that nick:
      the members before it keep their places, the ones after it move up by
      one, and the list loses exactly that one user. */
  lemma QuitRemovesExactlyOne(name: string, s: State, r: Reply, i: nat)
    requires r.command == "QUIT" && '!' in r.prefix
    requires i < |s.users| && s.users[i] == User(NickOf(r.prefix).value)
    requires forall k :: 0 <= k < i ==> s.users[k] != s.users[i]
    ensures Dispatch(name, s, r).Done?
    ensures var after := Dispatch(name, s, r).after.users;
      |after| == |s.users| - 1 &&
      (forall k :: 0 <= k < i ==> after[k] == s.users[k]) &&
      (forall k :: i <= k < |after| ==> after[k] == s.users[k + 1]) &&
      multiset(after) + multiset{s.users[i]} == multiset(s.users)
  {
    assert Dispatch(name, s, r) == Done(s.(users := s.users[..i] + s.users[i + 1..]), []) by {
      TryParseRejectsLetters(r.command, 0);
      TextDispatch(name, s, r);
      assert s.users[i].nick == NickOf(r.prefix).value;
      assert IndexOfNick(s.users, NickOf(r.prefix).value) == i;
    }
    DeleteAt(s.users, i);
  }

  lemma DeleteAt(users: seq<User>, i: nat)
    requires i < |users|
    ensures var after := users[..i] + users[i + 1..];
      |after| == |users| - 1 &&
      (forall k :: 0 <= k < i ==> after[k] == users[k]) &&
      (forall k :: i <= k < |after| ==> after[k] == users[k + 1]) &&
      multiset(after) + multiset{users[i]} == multiset(users)
  {
    assert users == users[..i] + [users[i]] + users[i + 1..];
  }

  /** RPL_TOPIC for this channel replaces the topic with the trailing text and
      no recorded changer, and raises one `TopicChanged` carrying it; for
      another channel it changes nothing; with fewer than two params it throws. */
  lemma TopicReply(name: string, s: State, r: Reply)
    requires TryParseInt32(r.command) == Some(RplTopic)
    ensures |r.params| < 2 ==> Dispatch(name, s, r) == Threw(ParamMissing(1))
    ensures |r.params| >= 2 && r.params[1] != name ==> Dispatch(name, s, r) == Done(s, [])
    ensures |r.params| >= 2 && r.params[1] == name ==>
      var t := Topic(r.trailing, None);
      Dispatch(name, s, r) == Done(State(s.users, Some(t)), [TopicChanged(t)])
  {
    NumericDispatch(name, s, r, RplTopic);
  }

  /** RPL_TOPICWHOTIME changes nothing: for this channel it only writes
      "Topic set by <params[2]>" to the log. */
  lemma TopicSetByReply(name: string, s: State, r: Reply)
    requires TryParseInt32(r.command) == Some(RplTopicSetBy)
    ensures |r.params| < 2 ==> Dispatch(name, s, r) == Threw(ParamMissing(1))
    ensures |r.params| >= 2 && r.params[1] != name ==> Dispatch(name, s, r) == Done(s, [])
    ensures |r.params| == 2 && r.params[1] == name ==> Dispatch(name, s, r) == Threw(ParamMissing(2))
    ensures |r.params| > 2 && r.params[1] == name ==>
      Dispatch(name, s, r) == Done(s, [Logged("Topic set by " + r.params[2])])
  {
    NumericDispatch(name, s, r, RplTopicSetBy);
  }

  /** RPL_NAMREPLY, whatever channel it names, adds the page's nicks to the
      member list (see the AddNames lemmas) and changes nothing else. */
  lemma NameReply(name: string, s: State, r: Reply)
    requires TryParseInt32(r.command) == Some(RplNameReply)
    ensures Dispatch(name, s, r) == Done(State(AddNames(s.users, Split(r.trailing)), s.topic), [])
  {
    NumericDispatch(name, s, r, RplNameReply);
  }

  /** RPL_NOTOPIC, whatever channel it names, resets the topic to empty text
      with no recorded changer and raises no notification. */
  lemma NoTopicReply(name: string, s: State, r: Reply)
    requires TryParseInt32(r.command) == Some(RplNoTopic)
    ensures Dispatch(name, s, r) == Done(State(s.users, Some(Topic("", None))), [])
  {
    NumericDispatch(name, s, r, RplNoTopic);
  }

  /** Every other command, numeric or not, changes and raises nothing. */
  lemma OtherReply(name: string, s: State, r: Reply)
    requires r.command != "JOIN" && r.command != "PRIVMSG" && r.command != "QUIT"
    requires TryParseInt32(r.command) !in {Some(RplTopic), Some(RplTopicSetBy), Some(RplNameReply), Some(RplNoTopic)}
    ensures Dispatch(name, s, r) == Done(s, [])
  {
    assert TextCommand(name, s, r) == FallThrough(s, []);
    match TryParseInt32(r.command)
    case None =>
    case Some(code) =>
      NumericDispatch(name, s, r, code);
    }

  /** The dispatch table in one place: which lemma above covers a reply. Only
      QUIT and RPL_NAMREPLY can change the member list, only RPL_TOPIC and
      RPL_NOTOPIC the topic. */
  lemma DispatchByCommand(name: string, s: State, r: Reply)
    ensures Dispatch(name, s, r).Done? && Dispatch(name, s, r).after.users != s.users ==>
      r.command == "QUIT" || TryParseInt32(r.command) == Some(RplNameReply)
    ensures Dispatch(name, s, r).Done? && Dispatch(name, s, r).after.topic != s.topic ==>
      TryParseInt32(r.command) == Some(RplTopic) || TryParseInt32(r.command) == Some(RplNoTopic)
  {
    if r.command == "JOIN" {
      JoinReply(name, s, r);
    } else if r.command == "PRIVMSG" {
      PrivmsgReply(name, s, r);
    } else if r.command == "QUIT" {
      QuitReply(name, s, r);
    } else if TryParseInt32(r.command) == Some(RplTopic) {
      TopicReply(name, s, r);
    } else if TryParseInt32(r.command) == Some(RplTopicSetBy) {
      TopicSetByReply(name, s, r);
    } else if TryParseInt32(r.command) == Some(RplNameReply) {
      NameReply(name, s, r);
    } else if TryParseInt32(r.command) == Some(RplNoTopic) {
      NoTopicReply(name, s, r);
    } else {
      OtherReply(name, s, r);
    }
  }

  // ---------------------------------------------------------------------
  // Names pages
  // ---------------------------------------------------------------------

  /** The new members a names page brings, as an independent description:
      each token that was not a member before the page and does not already
      occur earlier on the page, in page order. */
  function NewMembers(users: seq<User>, tokens: seq<string>): seq<User> {
    if tokens == [] then []
    else
      var last := tokens[|tokens| - 1];
      var earlier := tokens[..|tokens| - 1];
      NewMembers(users, earlier) + (if User(last) in users || last in earlier then [] else [User(last)])
  }

  lemma {:induction false} NewMembersAreTokens(users: seq<User>, tokens: seq<string>, u: User)
    ensures u in NewMembers(users, tokens) <==> u !in users && u.nick in tokens
  {
    if tokens != [] {
      var last := tokens[|tokens| - 1];
      var earlier := tokens[..|tokens| - 1];
      NewMembersAreTokens(users, earlier, u);
      assert tokens == earlier + [last];
    }
  }

  /** A names page appends to the member list exactly its new members, in
      page order: members already present keep their positions. */
  lemma {:induction false} AddNamesAppendsNewMembers(users: seq<User>, tokens: seq<string>)
    ensures AddNames(users, tokens) == users + NewMembers(users, tokens)
  {
    if tokens != [] {
      var last := tokens[|tokens| - 1];
      var earlier := tokens[..|tokens| - 1];
      AddNamesAppendsNewMembers(users, earlier);
      NewMembersAreTokens(users, earlier, User(last));
      var sofar := AddNames(users, earlier);
      assert User(last) in sofar <==> User(last) in users || last in earlier;
      if User(last) !in sofar {
        assert sofar + [User(last)] == users + (NewMembers(users, earlier) + [User(last)]);
      }
    }
  }

  /** After a names page the members are the old members and the page's tokens. */
  lemma AddNamesMembers(users: seq<User>, tokens: seq<string>, u: User)
    ensures u in AddNames(users, tokens) <==> u in users || u.nick in tokens
  {
    AddNamesAppendsNewMembers(users, tokens);
    NewMembersAreTokens(users, tokens, u);
  }

  /** A names page keeps a duplicate-free member list duplicate-free, even when
      the page repeats a nick. */
  lemma {:induction false} AddNamesDistinct(users: seq<User>, tokens: seq<string>)
    requires Distinct(users)
    ensures Distinct(AddNames(users, tokens))
  {
    if tokens != [] {
      AddNamesDistinct(users, tokens[..|tokens| - 1]);
    }
  }

  /** A names list applied twice leaves the members as applying it once. */
  lemma AddNamesIdempotent(users: seq<User>, tokens: seq<string>)
    ensures AddNames(AddNames(users, tokens), tokens) == AddNames(users, tokens)
  {
    var once := AddNames(users, tokens);
    forall k | 0 <= k < |tokens| ensures User(tokens[k]) in once {
      AddNamesMembers(users, tokens, User(tokens[k]));
    }
    AddNamesOfMembers(once, tokens);
  }

  /** A page whose every token is already a member changes nothing. */
  lemma {:induction false} AddNamesOfMembers(users: seq<User>, tokens: seq<string>)
    requires forall k :: 0 <= k < |tokens| ==> User(tokens[k]) in users
    ensures AddNames(users, tokens) == users
  {
    if tokens != [] {
      AddNamesOfMembers(users, tokens[..|tokens| - 1]);
    }
  }

  /** Processing the same RPL_NAMREPLY twice gives the state processing it once gives. */
  lemma NameReplyTwice(name: string, s: State, r: Reply)
    requires TryParseInt32(r.command) == Some(RplNameReply)
    ensures Dispatch(name, s, r).Done?
    ensures Dispatch(name, Dispatch(name, s, r).after, r) == Dispatch(name, s, r)
  {
    NameReply(name, s, r);
    NameReply(name, Dispatch(name, s, r).after, r);
    AddNamesIdempotent(s.users, Split(r.trailing));
  }

  // ---------------------------------------------------------------------
  // The member list stays duplicate-free
  // ---------------------------------------------------------------------

  /** Every reply keeps a duplicate-free member list duplicate-free. */
  lemma DispatchKeepsDistinct(name: string, s: State, r: Reply)
    requires Distinct(s.users) && Dispatch(name, s, r).Done?
    ensures Distinct(Dispatch(name, s, r).after.users)
  {
    DispatchByCommand(name, s, r);
    if r.command == "QUIT" && '!' in r.prefix {
      var i := IndexOfNick(s.users, NickOf(r.prefix).value);
      if 0 <= i {
        QuitRemovesExactlyOne(name, s, r, i);
        DeleteAtDistinct(s.users, i);
      }
    } else if TryParseInt32(r.command) == Some(RplNameReply) {
      NameReply(name, s, r);
      AddNamesDistinct(s.users, Split(r.trailing));
    }
  }

  lemma DeleteAtDistinct(users: seq<User>, i: nat)
    requires i < |users| && Distinct(users)
    ensures Distinct(users[..i] + users[i + 1..])
  {
    var after := users[..i] + users[i + 1..];
    forall a, b | 0 <= a < b < |after| ensures after[a] != after[b] {
      var a' := if a < i then a else a + 1;
      var b' := if b < i then b else b + 1;
      assert after[a] == users[a'] && after[b] == users[b'];
    }
  }

  /** The state after a run of replies, each applied to the state the one
      before it left (a reply that throws leaves the state as it was). */
  function Replay(name: string, s: State, replies: seq<Reply>): State {
    if replies == [] then s
    else
      var s' := Replay(name, s, replies[..|replies| - 1]);
      match Dispatch(name, s', replies[|replies| - 1])
      case Done(after, _) => after
      case Threw(_) => s'
  }

  /** However the names list is paged, and whatever else arrives between the
      pages, a channel that starts with no duplicate members never gets any. */
  lemma {:induction false} ReplayKeepsDistinct(name: string, s: State, replies: seq<Reply>)
    requires Distinct(s.users)
    ensures Distinct(Replay(name, s, replies).users)
  {
    if replies != [] {
      var s' := Replay(name, s, replies[..|replies| - 1]);
      ReplayKeepsDistinct(name, s, replies[..|replies| - 1]);
      if Dispatch(name, s', replies[|replies| - 1]).Done? {
        DispatchKeepsDistinct(name, s', replies[|replies| - 1]);
      }
    }
  }

  // ---------------------------------------------------------------------
  // A worked session on channel "#test"
  // ---------------------------------------------------------------------

  lemma NamesPageTokens(trailing: string)
    requires trailing == "alice bob carol"
    ensures AddNames([], Split(trailing)) == [User("alice"), User("bob"), User("carol")]
  {
    var tokens := ["alice", "bob", "carol"];
    SplitJoinWith(tokens, ' ');
    assert JoinWith(tokens, ' ') == trailing;
    assert tokens[..2] == ["alice", "bob"];
    assert tokens[..2][..1] == ["alice"];
    assert ["alice"][..0] == [];
    assert AddNames([], ["alice"]) == [User("alice")];
    assert AddNames([], ["alice", "bob"]) == [User("alice"), User("bob")];
  }

  lemma NamesCode(command: string)
    requires command == "353"
    ensures TryParseInt32(command) == Some(RplNameReply)
  {
    assert DecimalString(353) == command;
    TryParseDecimalString(353);
  }

  /** The names page "alice bob carol" makes alice, bob and carol members, in that order. */
  lemma SessionNames(s: State, names: Reply)
    requires s.users == []
    requires names.command == "353" && names.trailing == "alice bob carol"
    ensures Dispatch("#test", s, names) == Done(State([User("alice"), User("bob"), User("carol")], s.topic), [])
  {
    NamesPageTokens(names.trailing);
    NamesCode(names.command);
    NameReply("#test", s, names);
  }

  lemma QuitterNick(prefix: string)
    requires prefix == "bob!u@h"
    ensures NickOf(prefix) == Some("bob")
  {
    assert prefix == "bob" + "!" + "u@h";
    NickOfPrefix("bob", "u@h");
  }

  /** bob's QUIT leaves alice and carol. */
  lemma SessionQuit(s: State, quit: Reply)
    requires s.users == [User("alice"), User("bob"), User("carol")]
    requires quit.command == "QUIT" && quit.prefix == "bob!u@h"
    ensures Dispatch("#test", s, quit) == Done(State([User("alice"), User("carol")], s.topic), [])
  {
    QuitterNick(quit.prefix);
    assert IndexOfNick(s.users, "bob") == 1 by {
      assert s.users[0].nick != "bob" && s.users[1].nick == "bob";
    }
    assert s.users[..1] + s.users[2..] == [User("alice"), User("carol")];
    TryParseRejectsLetters(quit.command, 0);
    TextDispatch("#test", s, quit);
  }

  /** alice's PRIVMSG "hi" to #test raises one `Message` from alice. */
  lemma SessionSay(s: State, say: Reply)
    requires s.users == [User("alice"), User("carol")]
    requires say.command == "PRIVMSG" && say.prefix == "alice!u@h"
    requires say.params == ["#test"] && say.trailing == "hi"
    ensures Dispatch("#test", s, say) == Done(s, [Message(ChatMessage(User("alice"), "hi"))])
  {
    assert say.prefix == "alice" + "!" + "u@h";
    NickOfPrefix("alice", "u@h");
    assert s.users[0] == User("alice");
    PrivmsgReply("#test", s, say);
  }

  // ---------------------------------------------------------------------
  // Two consequences of taking names pages literally
  // ---------------------------------------------------------------------

  /** Two spaces in a row between two nicks on a names page make a member
      with an empty nick. */
  lemma DoubleSpaceAddsEmptyNick(users: seq<User>, first: string, second: string)
    requires NoWhiteSpace(first) && NoWhiteSpace(second)
    ensures User("") in AddNames(users, Split(first + "  " + second))
  {
    var tokens := [first, "", second];
    SplitJoinWith(tokens, ' ');
    assert JoinWith(tokens, ' ') == first + "  " + second by {
      assert tokens[1..] == ["", second] && tokens[1..][1..] == [second];
      assert JoinWith(["", second], ' ') == " " + second;
    }
    assert tokens[1] == "";
    AddNamesMembers(users, tokens, User(""));
  }

  /** A names page lists channel operators as "@nick". Under the model's
      assumption that `new User(client, name)` takes `name` as its nick
      unchanged, the member is "@alice", so a message from the operator's
      "nick!user@host" prefix finds no member and throws. */
  lemma OperatorMessageThrows(s: State, say: Reply)
    requires s.users == [User("@alice")]
    requires say.command == "PRIVMSG" && say.prefix == "alice!u@h" && say.params == ["#test"]
    ensures Dispatch("#test", s, say) == Threw(NoSuchMember)
  {
    assert say.prefix == "alice" + "!" + "u@h";
    NickOfPrefix("alice", "u@h");
    assert User("alice") !in s.users by {
      assert "alice"[0] != "@alice"[0];
    }
    PrivmsgReply("#test", s, say);
  }
}
