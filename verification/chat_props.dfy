/**
 * Properties of the chat page that relate several transitions: what every
 * reachable state satisfies, how message logs evolve, and the behaviours the
 * page shows at its edges (dangling active id, overlapping sends, replies
 * after a switch, ids taken in the same millisecond).
 */
module ChatProps {
  import opened Wrappers
  import opened Types
  import opened JsString
  import opened Chat

  /** One user- or gateway-driven event on the page. */
  datatype Step =
    | Send(text: string, now: nat)
    | Resolve(pending: Pending, reply: Reply, now: nat)
    | Create(now: nat)
    | Select(id: string)
    | Language(language: string)

  function Apply(s: State, step: Step): State
  {
    match step
    case Send(text, now) => SendStart(s, text, now).state
    case Resolve(p, reply, now) => SendResolve(s, p, reply, now)
    case Create(now) => NewChat(s, now)
    case Select(id) => SelectSession(s, id)
    case Language(language) => ChangeLanguage(s, language)
  }

  /** Applies the steps in order. A `Resolve` may carry any request, so overlapping sends are covered. */
  function Run(s: State, steps: seq<Step>): State
    decreases |steps|
  {
    if |steps| == 0 then s else Run(Apply(s, steps[0]), steps[1..])
  }

  /** There is always a session to display, and no session has an empty log. */
  predicate WellFormed(s: State)
  {
    && |s.sessions| > 0
    && forall i :: 0 <= i < |s.sessions| ==> |s.sessions[i].messages| > 0
  }

  function IdsOf(ss: seq<Session>): (r: seq<string>)
    ensures |r| == |ss|
    ensures forall i :: 0 <= i < |ss| ==> r[i] == ss[i].id
  {
    seq(|ss|, i requires 0 <= i < |ss| => ss[i].id)
  }

  /** The session ids after a step end with the session ids before it: nothing is removed or renamed. */
  predicate KeepsIds(before: State, after: State)
  {
    |IdsOf(before.sessions)| <= |IdsOf(after.sessions)| &&
    IdsOf(after.sessions)[|after.sessions| - |before.sessions|..] == IdsOf(before.sessions)
  }

  /** Collections whose sessions carry the same ids, position by position, have the same id sequence. */
  lemma SameIds(a: seq<Session>, b: seq<Session>)
    requires |a| == |b| && forall i :: 0 <= i < |a| ==> a[i].id == b[i].id
    ensures IdsOf(a) == IdsOf(b)
  {
  }

  lemma StepKeepsIds(s: State, step: Step)
    ensures KeepsIds(s, Apply(s, step))
  {
    var r := Apply(s, step);
    match step
    case Create(now) =>
      assert r.sessions[1..] == s.sessions;
      assert IdsOf(r.sessions)[1..] == IdsOf(s.sessions);
    case Send(text, now) =>
      SameIds(s.sessions, r.sessions);
    case Resolve(p, reply, now) =>
      SameIds(s.sessions, r.sessions);
    case Select(id) =>
    case Language(language) =>
      SameIds(s.sessions, r.sessions);
  }

  lemma KeepsIdsTransitive(a: State, b: State, c: State)
    requires KeepsIds(a, b) && KeepsIds(b, c)
    ensures KeepsIds(a, c)
  {
    assert IdsOf(c.sessions)[|c.sessions| - |a.sessions|..]
        == IdsOf(c.sessions)[|c.sessions| - |b.sessions|..][|b.sessions| - |a.sessions|..];
  }

  lemma StepPreservesWellFormed(s: State, step: Step)
    requires WellFormed(s)
    ensures WellFormed(Apply(s, step))
  {
    var r := Apply(s, step);
    var k := if step.Create? then 1 else 0;
    StepLogsOnlyGrow(s, step);
    forall j | 0 <= j < |r.sessions| ensures |r.sessions[j].messages| > 0 {
      if j < k {
        assert r.sessions[0].messages == InitialMessages;
      } else {
        assert LogStep(s.sessions[j - k].messages, r.sessions[j].messages);
      }
    }
  }

  /**
   * Every state the page reaches from a well-formed one, by any sequence of
   * events, is well formed and still carries the old session ids at the end
   * of the collection: the active session always resolves, and no session is
   * ever removed.
   */
  lemma {:induction false} RunPreservesWellFormed(s: State, steps: seq<Step>)
    requires WellFormed(s)
    ensures WellFormed(Run(s, steps)) && KeepsIds(s, Run(s, steps))
    ensures ActiveSession(Run(s, steps)).Some?
    decreases |steps|
  {
    if |steps| > 0 {
      var next := Apply(s, steps[0]);
      StepPreservesWellFormed(s, steps[0]);
      StepKeepsIds(s, steps[0]);
      RunPreservesWellFormed(next, steps[1..]);
      KeepsIdsTransitive(s, next, Run(next, steps[1..]));
    }
  }

  lemma InitialWellFormed(loadTime: nat)
    ensures WellFormed(InitialState(loadTime))
  {
  }

  /** A log either keeps all its messages as a prefix, or is the two-message log replaced by one message. */
  predicate LogStep(before: seq<Message>, after: seq<Message>)
  {
    before <= after || (|before| == 2 && |after| == 1)
  }

  /** Sessions at the same positions whose logs are related by `LogStep`. */
  predicate LogsGrowFrom(before: seq<Session>, after: seq<Session>, shift: nat)
  {
    |before| + shift == |after| &&
    forall i :: 0 <= i < |before| ==> LogStep(before[i].messages, after[i + shift].messages)
  }

  lemma SendLogsOnlyGrow(s: State, text: string, now: nat)
    ensures LogsGrowFrom(s.sessions, SendStart(s, text, now).state.sessions, 0)
  {
  }

  /** A reply only ever extends logs at the end. */
  lemma ResolveLogsOnlyGrow(s: State, p: Pending, reply: Reply, now: nat)
    ensures LogsGrowFrom(s.sessions, SendResolve(s, p, reply, now).sessions, 0)
    ensures forall i :: 0 <= i < |s.sessions| ==>
      s.sessions[i].messages <= SendResolve(s, p, reply, now).sessions[i].messages
  {
  }

  /** A new chat leaves every old log exactly as it was, one position further down. */
  lemma NewChatLogsUnchanged(s: State, now: nat)
    ensures LogsGrowFrom(s.sessions, NewChat(s, now).sessions, 1)
    ensures forall i :: 0 <= i < |s.sessions| ==>
      NewChat(s, now).sessions[i + 1].messages == s.sessions[i].messages
  {
  }

  /**
   * Across any step, the session at each old position (shifted by one after a
   * new chat) has a log that only grew at the end, except for the one
   * two-to-one replacement made by a send.
   */
  lemma StepLogsOnlyGrow(s: State, step: Step)
    ensures LogsGrowFrom(s.sessions, Apply(s, step).sessions, if step.Create? then 1 else 0)
    ensures !step.Send? ==> forall i :: 0 <= i < |s.sessions| ==>
      s.sessions[i].messages <= Apply(s, step).sessions[i + (if step.Create? then 1 else 0)].messages
  {
    match step
    case Send(text, now) => SendLogsOnlyGrow(s, text, now);
    case Resolve(p, reply, now) => ResolveLogsOnlyGrow(s, p, reply, now);
    case Create(now) => NewChatLogsUnchanged(s, now);
    case Select(id) =>
    case Language(language) =>
  }

  /** A blank send leaves the whole state as it was and issues no request. */
  lemma BlankSendIsSilent(s: State, text: string, now: nat)
    requires AllWhiteSpace(text)
    ensures SendStart(s, text, now) == Started(s, None)
  {
  }

  /** Empty and space-only texts are blank; a text with a visible character is not. */
  lemma BlankExamples()
    ensures IsBlank("") && IsBlank("   ") && IsBlank("\t\n") && !IsBlank(" a ")
  {
    assert AllWhiteSpace("   ") && AllWhiteSpace("\t\n");
    assert !IsWhiteSpace(" a "[1]);
  }

  /** The title examples: forty a's become thirty a's and "...", and a short text is kept whole. */
  lemma TitleExamples()
    ensures TruncatedTitle(seq(40, _ => 'a')) == seq(30, _ => 'a') + "..."
    ensures TruncatedTitle("short") == "short"
  {
  }

  /**
   * The title is rewritten whenever it still reads "New Chat", not just on
   * the first message: a first message "New Chat" keeps the sentinel, so the
   * second message titles the session.
   */
  lemma SentinelTitleRewrittenAgain(sess: Session, second: string, t1: nat, t2: nat)
    requires sess.title == NewChatTitle && |second| <= TitleLimit
    ensures WithUserMessage(sess, NewChatTitle, t1).title == NewChatTitle
    ensures WithUserMessage(WithUserMessage(sess, NewChatTitle, t1), second, t2).title == second
  {
  }

  /**
   * The replacement rule looks only at the log's length: a log holding one
   * finished exchange (a user message and its reply) is discarded by the next
   * send just like the welcome script.
   */
  lemma FinishedExchangeIsReplaced(loadTime: nat, t1: nat, t2: nat, t3: nat, answer: Content)
    ensures var s1 := SendStart(InitialState(loadTime), "hi", t1);
      var s2 := SendResolve(s1.state, s1.pending.value, Success(answer), t2);
      var s3 := SendStart(s2, "again", t3);
      && s2.sessions[0].messages == [UserMessage("hi", t1), Message(IdFor("bot-", t2), Bot, answer)]
      && s3.state.sessions[0].messages == [UserMessage("again", t3)]
  {
    VisibleFirstCharIsNotBlank("hi");
    VisibleFirstCharIsNotBlank("again");
    var s0 := InitialState(loadTime);
    var s1 := SendStart(s0, "hi", t1);
    assert s1.state.sessions[0].messages == [UserMessage("hi", t1)];
    var s2 := SendResolve(s1.state, s1.pending.value, Success(answer), t2);
    assert s2.sessions[0].messages == [UserMessage("hi", t1), Message(IdFor("bot-", t2), Bot, answer)];
    assert s2.activeId == s2.sessions[0].id;
    var s3 := SendStart(s2, "again", t3);
    assert s3.state.sessions[0] == WithUserMessage(s2.sessions[0], "again", t3);
  }

  /** A text whose first character is not white space is not blank. */
  lemma VisibleFirstCharIsNotBlank(text: string)
    requires |text| > 0 && !IsWhiteSpace(text[0])
    ensures !IsBlank(text)
  {
  }

  /**
   * With an active id no session carries, the page still displays the first
   * session and sends from it: the request is issued with that session's
   * language and the flag is raised, but no session receives the user
   * message, the reply, or a language change.
   */
  lemma DanglingActiveIdIsSilent(s: State, id: string, text: string, now: nat, reply: Reply, later: nat, language: string)
    requires |s.sessions| > 0 && !HasId(s.sessions, id) && !IsBlank(text)
    ensures var s1 := SelectSession(s, id);
      var started := SendStart(s1, text, now);
      && ActiveSession(s1) == Some(s.sessions[0])
      && started.state.sessions == s.sessions
      && started.state.isLoading
      && started.pending == Some(Pending(id, text, s.sessions[0].language))
      && SendResolve(started.state, started.pending.value, reply, later).sessions == s.sessions
      && ChangeLanguage(s1, language).sessions == s.sessions
  {
  }

  /** Where a reply lands does not depend on which session is active when it arrives. */
  lemma ReplyIgnoresActivePointer(s: State, p: Pending, reply: Reply, now: nat, other: string)
    ensures SendResolve(s.(activeId := other), p, reply, now).sessions == SendResolve(s, p, reply, now).sessions
  {
  }

  /**
   * A reply to a send still lands in the session the send started from after
   * the user opened a new chat, provided the new chat's id differs from that
   * session's: the new chat stays untouched, each session with the captured id
   * (now one place further down) gains the bot message, and every other
   * session is kept.
   */
  lemma ReplyAfterNewChat(s: State, text: string, t1: nat, t2: nat, t3: nat, reply: Reply)
    requires |s.sessions| > 0 && !IsBlank(text)
    requires IdFor("session-", t2) != s.activeId
    ensures var started := SendStart(s, text, t1);
      var switched := NewChat(started.state, t2);
      var resolved := SendResolve(switched, started.pending.value, reply, t3);
      && resolved.sessions[0] == switched.sessions[0]
      && resolved.activeId == switched.activeId
      && |resolved.sessions| == |started.state.sessions| + 1
      && (forall i :: 0 <= i < |started.state.sessions| && started.state.sessions[i].id == s.activeId ==>
            resolved.sessions[i + 1].messages == started.state.sessions[i].messages + [BotMessage(reply, t3)])
      && (forall i :: 0 <= i < |started.state.sessions| && started.state.sessions[i].id != s.activeId ==>
            resolved.sessions[i + 1] == started.state.sessions[i])
  {
    var started := SendStart(s, text, t1);
    var p := started.pending.value;
    assert p.sessionId == s.activeId;
    var before := started.state.sessions;
    var switched := NewChat(started.state, t2);
    var resolved := SendResolve(switched, p, reply, t3);
    assert switched.sessions[0].id != p.sessionId;
    forall i | 0 <= i < |before| && before[i].id == s.activeId
      ensures resolved.sessions[i + 1].messages == before[i].messages + [BotMessage(reply, t3)]
    {
      assert switched.sessions[i + 1] == switched.sessions[1..][i] == before[i];
    }
    forall i | 0 <= i < |before| && before[i].id != s.activeId
      ensures resolved.sessions[i + 1] == before[i]
    {
      assert switched.sessions[i + 1] == switched.sessions[1..][i] == before[i];
    }
  }

  /** When the new chat is opened in the same millisecond the sending session was created, the reply lands in the new chat too. */
  lemma ReplyLandsInNewChatOnIdCollision(loadTime: nat, t1: nat, t3: nat, reply: Reply)
    ensures var started := SendStart(InitialState(loadTime), "hi", t1);
      var switched := NewChat(started.state, loadTime);
      var resolved := SendResolve(switched, started.pending.value, reply, t3);
      resolved.sessions[0].messages == InitialMessages + [BotMessage(reply, t3)]
  {
    VisibleFirstCharIsNotBlank("hi");
  }

  /**
   * The awaiting flag is one boolean for the whole page: with two sends in
   * flight, the first reply clears it while the second is still outstanding.
   */
  lemma OverlappingSendsClearFlagEarly(s: State, a: string, b: string, t1: nat, t2: nat, t3: nat, reply: Reply)
    requires |s.sessions| > 0 && !IsBlank(a) && !IsBlank(b)
    ensures var first := SendStart(s, a, t1);
      var second := SendStart(first.state, b, t2);
      && first.pending.Some? && second.pending.Some?
      && second.state.isLoading
      && !SendResolve(second.state, first.pending.value, reply, t3).isLoading
  {
  }

  /** After a language change the next send hands the new language to the gateway. */
  lemma LanguageReachesGateway(s: State, language: string, text: string, now: nat)
    requires HasId(s.sessions, s.activeId) && !IsBlank(text)
    ensures SendStart(ChangeLanguage(s, language), text, now).pending.value.language == language
  {
  }

  /**
   * Ids come from the millisecond clock, so two chats opened in the same
   * millisecond share an id, and a language change then rewrites both.
   */
  lemma SameMillisecondSharesId(s: State, now: nat, language: string)
    ensures var twice := NewChat(NewChat(s, now), now);
      && twice.sessions[0].id == twice.sessions[1].id
      && ChangeLanguage(twice, language).sessions[0].language == language
      && ChangeLanguage(twice, language).sessions[1].language == language
  {
  }

  /** Chats opened at different milliseconds get different ids. */
  lemma DistinctMillisecondsDistinctIds(s: State, a: nat, b: nat)
    requires a != b
    ensures var twice := NewChat(NewChat(s, a), b);
      twice.sessions[0].id != twice.sessions[1].id
  {
    var once := NewChat(s, a);
    var twice := NewChat(once, b);
    assert twice.sessions[1] == once.sessions[0];
    IdForInjective("session-", a, b);
  }

  const Question: string := "What is groundwater?"
  const Answer: string := "It's water stored underground."

  /**
   * The documented round trip on the seeded session: the question replaces
   * the welcome script, titles the session, is sent in English, and the
   * answer (or, on failure, the apology) follows it with the flag cleared.
   */
  lemma GroundwaterExchange(loadTime: nat, t1: nat, t2: nat, reply: Reply)
    requires reply == Success(Text(Answer)) || reply == Failure
    ensures var started := SendStart(InitialState(loadTime), Question, t1);
      var resolved := SendResolve(started.state, started.pending.value, reply, t2);
      && started.pending == Some(Pending(IdFor("session-", loadTime), Question, DefaultLanguage))
      && started.state.isLoading
      && started.state.sessions[0].messages == [UserMessage(Question, t1)]
      && started.state.sessions[0].title == Question
      && !resolved.isLoading
      && resolved.sessions[0].messages == [UserMessage(Question, t1), BotMessage(reply, t2)]
      && resolved.sessions[0].messages[1].role == Bot
      && resolved.sessions[0].messages[1].content ==
           (if reply.Success? then Text(Answer) else Text(ErrorReply))
  {
    VisibleFirstCharIsNotBlank(Question);
    var s0 := InitialState(loadTime);
    var started := SendStart(s0, Question, t1);
    assert started.state.sessions[0] == WithUserMessage(s0.sessions[0], Question, t1);
    var resolved := SendResolve(started.state, started.pending.value, reply, t2);
    assert resolved.sessions[0].messages == started.state.sessions[0].messages + [BotMessage(reply, t2)];
  }
}
