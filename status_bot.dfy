/**
 * The status bot's message handler (MainHandler of TravisStatusBot): it answers the `/feed`,
 * `/help` and `/subscribe` commands with a LIKE reaction and a text, and accepts connection
 * requests with a greeting.  What the handler sends is recorded, in order, in `outbox`; the
 * feed's incidents and the date formatter are inputs.
 */
module StatusBotModel {
  import opened TravisTypes

  const FeedHeader := "Here are the 5 latest feed entries:\n\n"
  const NoItems := "No items found :("
  const NotImplemented := "Not yet implemented :("
  /** The `/feed` reply lists at most this many incidents. */
  const FeedLimit := 5

  /** The greeting, with the bot's version spliced in. */
  function HelpText(version: string): string
  {
    "**Hello!** \U{1F60E} This is Travis Status Bot v" + version
      + " speaking.\n\nAvailable commands:\n- /feed \n- /help\n- /subscribe\n"
  }

  /** `s` ends with `suffix`. */
  predicate EndsWith(s: string, suffix: string)
  {
    |suffix| <= |s| && s[|s| - |suffix|..] == suffix
  }

  /** The date part of a feed line: the formatted creation date and a colon, when there is one. */
  function DatePart(formatDate: string -> string, createdAt: string): (d: string)
    ensures createdAt != "" ==> d == formatDate(createdAt) + ": "
    ensures createdAt == "" ==> d == ""
  {
    if createdAt != "" then formatDate(createdAt) + ": " else ""
  }

  /** The link part of a feed line: the short link in parentheses, when there is one. */
  function LinkPart(shortlink: string): (l: string)
    ensures shortlink != "" ==> l == " (" + shortlink + ")"
    ensures shortlink == "" ==> l == ""
  {
    if shortlink != "" then " (" + shortlink + ")" else ""
  }

  function Quoted(name: string): string
  {
    "\"" + name + "\""
  }

  /** One line of the `/feed` reply: the optional date part, the quoted name, the optional
      link part. */
  function FeedLine(formatDate: string -> string, x: Incident): (line: string)
    ensures |line| >= 3 && line[..2] == "- " && line[|line| - 1] == '\n'
    ensures x.createdAt == "" && x.shortlink == "" ==> line == "- \"" + x.name + "\"\n"
  {
    "- " + DatePart(formatDate, x.createdAt) + Quoted(x.name) + LinkPart(x.shortlink) + "\n"
  }

  /** A concatenation starts with its first part and ends with its second. */
  lemma ConcatEnds(a: string, b: string)
    ensures a <= a + b && EndsWith(a + b, b)
  {
    assert (a + b)[..|a|] == a;
    assert (a + b)[|a + b| - |b|..] == b;
  }

  lemma ConcatAssoc(a: string, b: string, c: string)
    ensures (a + b) + c == a + (b + c)
  {
  }

  /** A prefix stays a prefix, and a suffix grows with what is appended. */
  lemma AppendKeepsEnds(s: string, t: string, c: string)
    ensures t <= s ==> t <= s + c
    ensures EndsWith(s, t) ==> EndsWith(s + c, t + c)
  {
    if EndsWith(s, t) {
      assert (s + c)[|s + c| - |t + c|..] == s[|s| - |t|..] + c;
    }
  }

  /** The line starts with `- `, then the date part (present exactly when the incident has a
      creation date), then the quoted name. */
  lemma FeedLineStart(formatDate: string -> string, x: Incident)
    ensures "- " + DatePart(formatDate, x.createdAt) + Quoted(x.name) <= FeedLine(formatDate, x)
  {
    var head := "- " + DatePart(formatDate, x.createdAt) + Quoted(x.name);
    ConcatEnds(head, LinkPart(x.shortlink));
    AppendKeepsEnds(head + LinkPart(x.shortlink), head, "\n");
  }

  /** The line ends with the quoted name, then the link part (present exactly when the
      incident has a short link), then a newline. */
  lemma FeedLineEnd(formatDate: string -> string, x: Incident)
    ensures EndsWith(FeedLine(formatDate, x), Quoted(x.name) + LinkPart(x.shortlink) + "\n")
  {
    var start := "- " + DatePart(formatDate, x.createdAt);
    ConcatEnds(start, Quoted(x.name));
    AppendKeepsEnds(start + Quoted(x.name), Quoted(x.name), LinkPart(x.shortlink));
    AppendKeepsEnds(start + Quoted(x.name) + LinkPart(x.shortlink), Quoted(x.name) + LinkPart(x.shortlink), "\n");
  }

  /** The `reduce` that builds the reply: each incident's line appended to the accumulator,
      left to right. */
  function AppendLines(acc: string, xs: seq<Incident>, formatDate: string -> string): string
    decreases |xs|
  {
    if xs == [] then acc else AppendLines(acc + FeedLine(formatDate, xs[0]), xs[1..], formatDate)
  }

  /** The lines of `xs`, one after another: the reference reading of the reduce. */
  function Lines(xs: seq<Incident>, formatDate: string -> string): string
  {
    if xs == [] then "" else FeedLine(formatDate, xs[0]) + Lines(xs[1..], formatDate)
  }

  /** The reduce appends exactly the lines of the incidents to its seed. */
  lemma {:induction false} AppendLinesIsConcat(acc: string, xs: seq<Incident>, formatDate: string -> string)
    ensures AppendLines(acc, xs, formatDate) == acc + Lines(xs, formatDate)
    decreases |xs|
  {
    if xs != [] {
      var line := FeedLine(formatDate, xs[0]);
      AppendLinesIsConcat(acc + line, xs[1..], formatDate);
      ConcatAssoc(acc, line, Lines(xs[1..], formatDate));
    }
  }

  /** The first `n` incidents, as `slice(0, n)` takes them. */
  function Take(xs: seq<Incident>, n: nat): (r: seq<Incident>)
    ensures |r| == if |xs| < n then |xs| else n
    ensures r == xs[..|r|]
  {
    if |xs| <= n then xs else xs[..n]
  }

  /** The `/feed` reply text. */
  function FeedReply(incidents: seq<Incident>, formatDate: string -> string): (reply: string)
    ensures incidents == [] ==> reply == NoItems
    ensures incidents != [] ==> reply == FeedHeader + Lines(Take(incidents, FeedLimit), formatDate)
  {
    if |incidents| > 0 then
      AppendLinesIsConcat(FeedHeader, Take(incidents, FeedLimit), formatDate);
      AppendLines(FeedHeader, Take(incidents, FeedLimit), formatDate)
    else NoItems
  }

  /** Incidents past the fifth never show in the reply. */
  lemma FeedReplyIgnoresTail(incidents: seq<Incident>, more: seq<Incident>, formatDate: string -> string)
    requires |incidents| >= FeedLimit
    ensures FeedReply(incidents + more, formatDate) == FeedReply(incidents, formatDate)
  {
    assert Take(incidents + more, FeedLimit) == Take(incidents, FeedLimit);
  }

  /** Lines are concatenated in incident order: the lines of a split list are the lines of its
      parts. */
  lemma {:induction false} LinesAppend(xs: seq<Incident>, ys: seq<Incident>, formatDate: string -> string)
    ensures Lines(xs + ys, formatDate) == Lines(xs, formatDate) + Lines(ys, formatDate)
  {
    if xs == [] {
      assert xs + ys == ys;
    } else {
      assert (xs + ys)[0] == xs[0];
      assert (xs + ys)[1..] == xs[1..] + ys;
      LinesAppend(xs[1..], ys, formatDate);
    }
  }

  /** A reply with a single incident is the header and that incident's line. */
  lemma FeedReplySingle(x: Incident, formatDate: string -> string)
    ensures FeedReply([x], formatDate) == FeedHeader + FeedLine(formatDate, x)
  {
    assert Take([x], FeedLimit) == [x];
    assert [x][1..] == [];
    assert Lines([x], formatDate) == FeedLine(formatDate, x) + Lines([], formatDate);
  }

  datatype ReactionType = Like
  datatype ConnectionStatus = Accepted | Blocked | Cancelled | Ignored | Pending | Sent

  /** What the handler sends. */
  datatype Effect =
    | Reaction(conversationId: string, messageId: string, kind: ReactionType)
    | Text(conversationId: string, text: string)
    | ConnectionResponse(userId: string, accept: bool)

  datatype PayloadType = TextMessage | ConnectionRequest | OtherPayload

  /** An incoming bundle; an absent conversation is the empty string.  `text` is the content of
      a text message, `to` and `status` that of a connection. */
  datatype Payload = Payload(kind: PayloadType, conversation: string, id: string, from: string,
                             text: string, to: string, status: ConnectionStatus)

  /** What `handleText` sends for a message. */
  function TextEffects(conversationId: string, text: string, messageId: string, version: string,
                       incidents: seq<Incident>, formatDate: string -> string): (out: seq<Effect>)
    ensures text in {"/feed", "/help", "/subscribe"} <==> out != []
    ensures out != [] ==> |out| == 2 && out[0] == Reaction(conversationId, messageId, Like) && out[1].Text?
    ensures out != [] ==> out[1].conversationId == conversationId
    ensures text == "/feed" ==> |out| == 2 && out[1].text == FeedReply(incidents, formatDate)
    ensures text == "/help" ==> |out| == 2 && out[1].text == HelpText(version)
    ensures text == "/subscribe" ==> |out| == 2 && out[1].text == NotImplemented
  {
    var like := Reaction(conversationId, messageId, Like);
    if text == "/feed" then [like, Text(conversationId, FeedReply(incidents, formatDate))]
    else if text == "/help" then [like, Text(conversationId, HelpText(version))]
    else if text == "/subscribe" then [like, Text(conversationId, NotImplemented)]
    else []
  }

  /** What `handleConnectionRequest` sends: the acceptance, then the greeting. */
  function ConnectionEffects(userId: string, conversationId: string, version: string): seq<Effect>
  {
    [ConnectionResponse(userId, true), Text(conversationId, HelpText(version))]
  }

  /** What `handleEvent` sends, following the `switch` with its fall-through from the text case
      into the connection-request case. */
  function EventEffects(p: Payload, version: string, incidents: seq<Incident>,
                        formatDate: string -> string): (out: seq<Effect>)
    ensures p.kind == OtherPayload ==> out == []
    ensures p.conversation == "" ==> out == []
    ensures p.kind == TextMessage && p.conversation != "" ==>
              out == TextEffects(p.conversation, p.text, p.id, version, incidents, formatDate)
    ensures p.kind == ConnectionRequest && p.conversation != "" ==>
              out == if p.status == Cancelled then [] else ConnectionEffects(p.to, p.conversation, version)
  {
    if p.kind == TextMessage && p.conversation != "" then
      TextEffects(p.conversation, p.text, p.id, version, incidents, formatDate)
    else if (p.kind == TextMessage || p.kind == ConnectionRequest)
            && p.conversation != "" && p.status != Cancelled then
      ConnectionEffects(p.to, p.conversation, version)
    else []
  }

  /** A text message never reaches the connection-request branch: with a conversation it is
      handled as text, without one the fall-through finds no conversation either. */
  lemma TextNeverConnects(p: Payload, version: string, incidents: seq<Incident>, formatDate: string -> string)
    requires p.kind == TextMessage
    ensures forall e :: e in EventEffects(p, version, incidents, formatDate) ==> !e.ConnectionResponse?
  {
  }

  /** A connection request in a conversation is accepted and greeted unless it was cancelled. */
  lemma ConnectionRequestAnswered(p: Payload, version: string, incidents: seq<Incident>, formatDate: string -> string)
    requires p.kind == ConnectionRequest && p.conversation != ""
    ensures EventEffects(p, version, incidents, formatDate) ==
            if p.status == Cancelled then [] else [ConnectionResponse(p.to, true), Text(p.conversation, HelpText(version))]
  {
  }

  class MainHandler {
    const version: string
    const formatDate: string -> string
    var outbox: seq<Effect>

    constructor (version: string, formatDate: string -> string)
      ensures this.version == version && this.formatDate == formatDate && outbox == []
    {
      this.version := version;
      this.formatDate := formatDate;
      outbox := [];
    }

    method SendReaction(conversationId: string, messageId: string, kind: ReactionType)
      modifies this
      ensures outbox == old(outbox) + [Reaction(conversationId, messageId, kind)]
    {
      outbox := outbox + [Reaction(conversationId, messageId, kind)];
    }

    method SendText(conversationId: string, text: string)
      modifies this
      ensures outbox == old(outbox) + [Text(conversationId, text)]
    {
      outbox := outbox + [Text(conversationId, text)];
    }

    method SendConnectionResponse(userId: string, accept: bool)
      modifies this
      ensures outbox == old(outbox) + [ConnectionResponse(userId, accept)]
    {
      outbox := outbox + [ConnectionResponse(userId, accept)];
    }

    /** `handleText`; `incidents` are those of the feed fetched for `/feed`. */
    method HandleText(conversationId: string, text: string, messageId: string, senderId: string,
                      incidents: seq<Incident>)
      modifies this
      ensures outbox == old(outbox) + TextEffects(conversationId, text, messageId, version, incidents, formatDate)
    {
      if text == "/feed" {
        SendReaction(conversationId, messageId, Like);
        var response := FeedHeader;
        if |incidents| > 0 {
          response := AppendLines(response, Take(incidents, FeedLimit), formatDate);
        } else {
          response := NoItems;
        }
        SendText(conversationId, response);
      } else if text == "/help" {
        SendReaction(conversationId, messageId, Like);
        SendText(conversationId, HelpText(version));
      } else if text == "/subscribe" {
        SendReaction(conversationId, messageId, Like);
        SendText(conversationId, NotImplemented);
      }
    }

    method HandleConnectionRequest(userId: string, conversationId: string)
      modifies this
      ensures outbox == old(outbox) + ConnectionEffects(userId, conversationId, version)
    {
      SendConnectionResponse(userId, true);
      SendText(conversationId, HelpText(version));
    }

    method HandleEvent(p: Payload, incidents: seq<Incident>)
      modifies this
      ensures outbox == old(outbox) + EventEffects(p, version, incidents, formatDate)
    {
      if p.kind == TextMessage && p.conversation != "" {
        HandleText(p.conversation, p.text, p.id, p.from, incidents);
        return;
      }
      if p.kind == TextMessage || p.kind == ConnectionRequest {
        if p.conversation != "" && p.status != Cancelled {
          HandleConnectionRequest(p.to, p.conversation);
          return;
        }
      }
    }
  }
}
