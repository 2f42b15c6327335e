# SharpIRC channel reply handling in Dafny

This project models one IRC channel as SharpIRC's `Channel` class keeps it
(`IRC/Channel.cs`). The class holds the ordered member list `Users`, the
channel `Topic`, and the `Joined`, `TopicChanged` and `Message`
notifications. `Channel.ProcessReply` is the handler that the client calls
for every reply it parses from the server. It reads the reply's `Command`,
`Prefix`, `Params` and `Trailing` fields and then does one of two things:

- for the textual commands `JOIN`, `PRIVMSG` and `QUIT` (section 3.2.1,
  section 3.3.1 and section 3.1.7 of RFC 2812), it raises a notification or
  removes a member;
- for the numeric replies RPL_TOPIC, RPL_NAMREPLY and RPL_NOTOPIC (section
  5.1 of RFC 2812) and RPL_TOPICWHOTIME (a widespread extension that RFC 2812
  does not define), it replaces the topic, logs, or adds members.

The project has three files:

- `strings.dfy` (module `Strings`) holds the .NET string operations the
  handler relies on. These are `char.IsWhiteSpace` and `String.Split()`
  with no separators, `String.IndexOf(char)`, and `int.TryParse` with the
  default integer number style.
- `irc.dfy` (module `Irc`) holds the entities: `User`, `Topic`, `Reply`,
  the notifications as `Event` values, and the exceptions the handler can
  throw as `Fault` values. It also holds `Dispatch`, which is the handler
  written as a function from the channel state and one reply to an
  `Outcome`. Last, it holds the class `Channel`. In that class,
  `ProcessReply` updates the `users` and `topic` fields step by step, as the
  C# method does, and is proved to agree with `Dispatch`.
- `properties.dfy` (module `ChannelProperties`) proves what the handler
  promises, stated about `Dispatch`. There is one lemma per command. Further
  lemmas cover:
  - the exact effect of a QUIT;
  - names pages, which only append, keep the member list free of duplicates,
    and are idempotent;
  - the invariant that any run of replies keeps the member list free of
    duplicates;
  - a worked session on channel `#test`.

How the model represents the C# behaviour:

- **Notifications.** They are returned in order as a sequence of `Event`
  values. The one line written to the client's logger is the event
  `Logged`.
- **Exceptions.** An exception becomes a `Fault`:
  - `reply.Params[i]` with too few params;
  - `Substring(0, -1)` when the prefix has no `!`;
  - `Users.First` when no member matches.

  The handler changes nothing before any of these can happen. The model
  proves this: on a fault the state is the old one and no event has been
  raised.
- **Reply codes.** The `ReplyCode` enumeration is not part of this model.
  The model assumes RFC 2812's values, RPL_NOTOPIC = 331, RPL_TOPIC = 332
  and RPL_NAMREPLY = 353, and the customary 333 for RPL_TOPICWHOTIME.
- **Users.** The `User` class is not part of this model. The model makes
  two assumptions about it. First, its equality compares nicknames. Second,
  `new User(client, name)` takes `name` as its nickname unchanged. So a
  member is modelled as its nickname.

The model follows the code as written, even where the code's comments or the
protocol's intent suggest otherwise:

- JOIN for this channel raises `Joined`. It neither marks the channel as
  connected nor adds the joining user.
- A PRIVMSG from a nick that is not a member throws instead of delivering
  the message. It also throws when the member list is empty, whatever the
  prefix.
- RPL_NAMREPLY does not check which channel it names.
- RPL_NOTOPIC resets the topic but raises no notification.
- Channel names are compared exactly, with case. The comment on `Name`
  says "case insensitive", but the comparisons in the handler are ordinal.
- The topic is null until the first topic reply. The model writes this as
  `None`.
- The code takes a names page literally:
  - two spaces in a row produce a member whose nick is empty
    (`DoubleSpaceAddsEmptyNick`);
  - if the assumption above about `new User` holds, an operator's `@` mode
    prefix stays part of the nick, so a later PRIVMSG from that operator
    throws (`OperatorMessageThrows`). Whether the real `User` constructor
    strips such prefixes cannot be read from the code modelled here.

## Model

| member | source | states |
|---|---|---|
| Irc.Channel.constructor | IRC/Channel.cs:91-96 | The new channel has the given name and key. It is not connected, it has no members, and its topic is null. |
| Irc.Channel.ProcessReply | IRC/Channel.cs:127-192 | The new members, topic and raised notifications are exactly what `Dispatch` gives for the old state. On an exception nothing changes and nothing is raised. `IsConnected` is never touched. |
| Irc.Channel.ProcessTextCommand | IRC/Channel.cs:137-162 | The textual switch agrees with `TextCommand`. It either returns, with a new state or an exception, or breaks out to the numeric codes with the notifications raised so far. |
| Irc.Channel.ProcessNumericReply | IRC/Channel.cs:168-191 | The numeric switch agrees with `NumericReply`. It appends to the notifications that the textual switch raised. On an exception the state is untouched and no notification has been raised. |
| Irc.Channel.AddNamesInPlace | IRC/Channel.cs:185-186 | The loop that adds each page token not yet in `Users` leaves exactly `AddNames(old users, tokens)`. It touches neither the topic nor `IsConnected`. |
| Strings.IsWhiteSpace | IRC/Channel.cs:185 | Its definition is the `char.IsWhiteSpace` table that `Split()` separates on: U+0009 to U+000D, U+0020, U+0085, U+00A0, U+1680, U+2000 to U+200A, U+2028, U+2029, U+202F, U+205F and U+3000. |
| Strings.Split | IRC/Channel.cs:185 | `Trailing.Split()` gives at least one token, and no token holds white space. |
| Strings.SplitInterleave | IRC/Channel.cs:185 | For every string, `Split` gives one more token than the string has white-space characters (`Seps`). Writing the tokens back with those characters between them gives the string again. Together with the contract of `Split`, this fixes the tokens for every input, including mixed or repeated white space. |
| Strings.SplitJoinWith | IRC/Channel.cs:185 | Splitting tokens joined by one white-space character gives the tokens back. This holds for any white-space-free tokens, empty ones included. |
| Strings.JoinWithSplit | IRC/Channel.cs:185 | Joining the tokens of `Split(s)` with the only white-space character in `s` gives `s` back. |
| Strings.IndexOf | IRC/Channel.cs:155 | `IndexOf('!')` is -1 exactly when there is no `!`. Otherwise it is the position of the first `!`. |
| Strings.TryParseInt32 | IRC/Channel.cs:164-166 | A successful `int.TryParse` gives a 32-bit value. |
| Strings.TryParseDecimalString | IRC/Channel.cs:164-166 | `int.TryParse` reads back every non-negative 32-bit value from its decimal text, so "331", "332", "333" and "353" reach the numeric switch. |
| Strings.TryParseRejectsLetters | IRC/Channel.cs:164-166 | A command holding a character that is not a digit, a sign or number white space never parses, so such a command ends after the textual switch. |
| Strings.TrimStart | IRC/Channel.cs:165 | Its definition drops the leading U+0009 to U+000D and U+0020 that `int.TryParse` skips before the number. |
| Strings.TrimEnd | IRC/Channel.cs:165 | Its definition drops the trailing U+0009 to U+000D and U+0020 that `int.TryParse` skips after the number. |
| Strings.TrimStartKeeps | IRC/Channel.cs:165 | Trimming before parsing drops only leading white space. A non-blank character keeps its place relative to the end. |
| Strings.TrimEndKeeps | IRC/Channel.cs:165 | Trimming before parsing drops only trailing white space. A non-blank character keeps its position. |
| Irc.EmptyTopic | IRC/Channel.cs:34-38 | Its definition is `new Topic()`: empty text and a null changer. |
| Irc.TopicWithText | IRC/Channel.cs:40-43 | Its definition is `new Topic(text)`: the given text and a changer left null. |
| Irc.AddName | IRC/Channel.cs:185-186 | Its definition adds one page token as a new last member unless a member with that nick is already present. |
| Irc.AddNames | IRC/Channel.cs:185-186 | Its definition applies `AddName` token by token in page order, each token checked against the list as the earlier tokens left it, as the lazy `Where` does. Its properties are the `AddNames` lemmas below. |
| Irc.TextCommand | IRC/Channel.cs:137-162 | Its definition is the switch on JOIN, PRIVMSG and QUIT. Each case either returns with a state or an exception, or breaks out with the state and the notifications so far. The per-command lemmas below state each case. |
| Irc.NumericReply | IRC/Channel.cs:168-191 | Its definition is the switch on the reply code. It appends to the notifications passed in, and throws on a missing `Params` index. The per-code lemmas below state each case. |
| Irc.Dispatch | IRC/Channel.cs:127-192 | Its definition is `ProcessReply` as a function: the textual switch, then `int.TryParse` on the command, then the numeric switch. `Irc.Channel.ProcessReply` is proved equal to it, and every lemma in `ChannelProperties` is about it. |
| Irc.NickOf | IRC/Channel.cs:155 | `Prefix.Substring(0, Prefix.IndexOf('!'))` succeeds exactly when the prefix has a `!`. The nick holds no `!`, and the nick followed by `!` starts the prefix. |
| Irc.IndexOfNick | IRC/Channel.cs:156 | `FirstOrDefault` by nick gives the first member with that nick, or no member when none has it. |
| Irc.FirstWithNick | IRC/Channel.cs:149 | `Users.First` throws for an empty list before the prefix is read. It throws for a prefix without `!`, and it throws when no member has the nick. Otherwise it gives the first member with the nick. |
| ChannelProperties.NickOfPrefix | IRC/Channel.cs:155 | The nick of `nick!user@host` is `nick` whenever `nick` has no `!`. |
| ChannelProperties.TextCommandsAreNotNumeric | IRC/Channel.cs:137-166 | JOIN, PRIVMSG and QUIT never parse as a number, so after their `break` the handler returns. |
| ChannelProperties.NumericDispatch | IRC/Channel.cs:137-169 | A reply whose command parses as a number passes the textual switch untouched and raises only what the numeric switch raises. |
| ChannelProperties.JoinReply | IRC/Channel.cs:139-144 | A JOIN without params, or for another channel, changes and raises nothing. A JOIN for this channel raises exactly one `Joined` and changes no state. |
| ChannelProperties.PrivmsgReply | IRC/Channel.cs:145-152 | A PRIVMSG without params, or for another channel, changes and raises nothing. For this channel it raises exactly one `Message`, from the member whose nick is the prefix before its first `!` and carrying `Trailing`. It throws, raising nothing, when there are no members, when the prefix has no `!`, or when no member has the nick. |
| ChannelProperties.QuitReply | IRC/Channel.cs:153-161 | A QUIT whose prefix has no `!` throws. A QUIT from a non-member changes and raises nothing. Any other QUIT raises nothing and leaves the topic alone. |
| ChannelProperties.QuitRemovesExactlyOne | IRC/Channel.cs:155-159 | A QUIT from a member removes exactly the first member with that nick. Earlier members keep their places, later ones move up by one, and the multiset of members loses exactly that user. |
| ChannelProperties.DeleteAt | IRC/Channel.cs:159 | Removing position `i` keeps the order of the others and loses exactly one copy of the removed user. |
| ChannelProperties.TopicReply | IRC/Channel.cs:171-176 | RPL_TOPIC for this channel sets the topic to `Trailing` with a null changer (the `Topic(string)` constructor, lines 40-43) and raises one `TopicChanged` carrying that topic (lines 85-89). For another channel it changes nothing. With fewer than two params it throws. |
| ChannelProperties.TopicSetByReply | IRC/Channel.cs:177-183 | RPL_TOPICWHOTIME changes no state. For this channel it only logs "Topic set by " and `Params[2]`. A missing `Params[1]`, or a missing `Params[2]` for this channel, throws. |
| ChannelProperties.NameReply | IRC/Channel.cs:184-187 | RPL_NAMREPLY, for any channel, adds the page's nicks with `AddNames`. It changes nothing else and raises nothing. |
| ChannelProperties.NoTopicReply | IRC/Channel.cs:188-190 | RPL_NOTOPIC, for any channel, sets the topic to empty text with a null changer (the `Topic()` constructor, lines 34-38). It raises nothing. |
| ChannelProperties.OtherReply | IRC/Channel.cs:164-169 | Any other command, numeric or not, changes and raises nothing. |
| ChannelProperties.DispatchByCommand | IRC/Channel.cs:137-191 | Only QUIT and RPL_NAMREPLY change the member list, and only RPL_TOPIC and RPL_NOTOPIC change the topic. |
| ChannelProperties.NewMembersAreTokens | IRC/Channel.cs:185 | A user is among a page's new members exactly when they were not a member and their nick is a token of the page. |
| ChannelProperties.AddNamesAppendsNewMembers | IRC/Channel.cs:185-186 | A names page appends exactly its new members, in page order. Existing members keep their positions. |
| ChannelProperties.AddNamesMembers | IRC/Channel.cs:185-186 | After a names page the members are exactly the old members plus the page's tokens. |
| ChannelProperties.AddNamesDistinct | IRC/Channel.cs:185-186 | A duplicate-free member list stays duplicate-free after a names page, even one that repeats a nick. |
| ChannelProperties.AddNamesOfMembers | IRC/Channel.cs:185-186 | A page whose every token is already a member changes nothing. |
| ChannelProperties.AddNamesIdempotent | IRC/Channel.cs:185-186 | Applying a names page twice gives the members that applying it once gives. |
| ChannelProperties.NameReplyTwice | IRC/Channel.cs:184-187 | Processing the same RPL_NAMREPLY twice gives the same state as processing it once. |
| ChannelProperties.DeleteAtDistinct | IRC/Channel.cs:159 | Removing one member keeps a duplicate-free list duplicate-free. |
| ChannelProperties.DispatchKeepsDistinct | IRC/Channel.cs:153-187 | Every reply that does not throw keeps a duplicate-free member list duplicate-free. |
| ChannelProperties.ReplayKeepsDistinct | IRC/Channel.cs:127-192 | A channel that starts with no duplicate members never gets any, whatever run of replies it processes, including replies that throw. |
| ChannelProperties.NamesPageTokens | IRC/Channel.cs:185-186 | The page "alice bob carol" on an empty channel adds alice, bob and carol, in that order. |
| ChannelProperties.NamesCode | IRC/Channel.cs:165 | The command "353" parses to RPL_NAMREPLY. |
| ChannelProperties.SessionNames | IRC/Channel.cs:184-187 | On `#test` with no members, the names reply "alice bob carol" gives exactly those three members. It keeps the topic and raises nothing. |
| ChannelProperties.QuitterNick | IRC/Channel.cs:155 | The nick of "bob!u@h" is "bob". |
| ChannelProperties.SessionQuit | IRC/Channel.cs:153-161 | bob's QUIT turns alice, bob, carol into alice, carol. |
| ChannelProperties.SessionSay | IRC/Channel.cs:145-152 | alice's PRIVMSG "hi" to `#test` raises exactly one `Message` from alice with text "hi". |
| ChannelProperties.DoubleSpaceAddsEmptyNick | IRC/Channel.cs:185-186 | A names page with two spaces in a row between two nicks adds a member whose nick is empty. |
| ChannelProperties.OperatorMessageThrows | IRC/Channel.cs:149 | When the member list holds "@alice", a PRIVMSG from "alice!u@h" throws. A names page lists an operator as "@alice", so this follows when `new User` keeps the name unchanged, as the model assumes. |

## Left out

- `Join`, `Leave` and `Invite` (IRC/Channel.cs:98-120) only subscribe to the client and call its transport. The `Client` class is not part of this model.
- `Kick` and `Say` (IRC/Channel.cs:112-125) have empty bodies.
- The client's logger is not called. The model raises a `Logged` event with the line instead.
- The `CollectionChanged` notifications that `Users.Remove` (IRC/Channel.cs:159) and `Users.Add` (IRC/Channel.cs:186) raise are dropped. A caller of the model sees those changes only in the new member list, and the QUIT and names-page lemmas say "raises nothing" about the channel's own events only.
- The C# event plumbing, including the null-handler checks, becomes the returned event sequence. Exceptions thrown by subscribed handlers are not modelled.
- `User` construction with the client (IRC/Channel.cs:185) and the contents of `Message` are not part of this model. A user is its nick, and a message is the user and the text.
- Threading and the delivery of `ReceivedReply` by the client are not modelled. Each call is one atomic step.
- `Topic.ToString` and the public setters of `Topic.Text`, `Topic.ChangeUser` and `Channel.Topic` are not modelled. The topic is a value, so aliasing through a shared `Topic` object is not captured.
- Null strings and null params lists are not modelled. Every field of a reply is a (possibly empty) string.
- Strings.TryParseInt32: it does not model trailing NUL characters or culture-specific sign symbols, which `int.TryParse` also accepts.
- Strings.IsWhiteSpace: it follows the current .NET table, which does not count U+180E as white space. Older .NET versions did.
- Strings.TryParseInt32: its only contract is the 32-bit range. The other facts about it are proved as the lemmas `TryParseDecimalString` and `TryParseRejectsLetters`.
- `IsConnected` and `Key` are set by code outside this model. `ProcessReply` never changes them.
