/**
 * The session store and send controller of the chat page, as pure transitions
 * over an explicit state: the ordered session collection (most recent first),
 * the active-session pointer and the single global "awaiting reply" flag.
 *
 * Every `Date.now()` the page reads becomes a `now: nat` parameter. Sending is
 * split in two steps: `SendStart` runs up to the gateway call and returns the
 * request it issues, `SendResolve` folds the gateway's outcome back in.
 */
module Chat {
  import opened Wrappers
  import opened Types
  import opened JsString

  const NewChatTitle: string := "New Chat"
  const DefaultLanguage: string := "English"
  const WelcomeText: string := "Welcome to the INGRES AI Assistant. I can help you with groundwater data for India, create charts, and even generate conceptual maps."
  const PromptText: string := "How can I assist you today?"
  const ErrorReply: string := "Sorry, an error occurred. Please try again."
  /** Titles keep at most this many characters of the first message. */
  const TitleLimit: nat := 30
  const Ellipsis: string := "..."

  /** The two-message welcome script every new session starts with. */
  const InitialMessages: seq<Message> := [
    Message("init-1", Bot, Text(WelcomeText)),
    Message("init-2", Bot, Text(PromptText))
  ]

  /** A session as built at start-up and by new chat, at clock reading `now`. */
  function FreshSession(now: nat): (s: Session)
    ensures s.id == IdFor("session-", now) && s.title == NewChatTitle
    ensures s.messages == InitialMessages && s.language == DefaultLanguage
  {
    Session(IdFor("session-", now), NewChatTitle, InitialMessages, DefaultLanguage)
  }

  datatype State = State(sessions: seq<Session>, activeId: string, isLoading: bool)

  /** The request a send hands to the gateway, with the session it will answer into. */
  datatype Pending = Pending(sessionId: string, text: string, language: string)

  /** What the gateway call comes back with: content, or any failure at all. */
  datatype Reply = Success(content: Content) | Failure

  /** What `SendStart` produces: the next state and the gateway request, if one is issued. */
  datatype Started = Started(state: State, pending: Option<Pending>)

  predicate HasId(ss: seq<Session>, id: string)
  {
    exists i :: 0 <= i < |ss| && ss[i].id == id
  }

  /**
   * The page's state when it mounts: one fresh session, built when the module
   * was loaded, active, and nothing awaited.
   */
  function InitialState(loadTime: nat): (s: State)
    ensures |s.sessions| == 1 && s.activeId == s.sessions[0].id && !s.isLoading
    ensures s.sessions[0].title == NewChatTitle && s.sessions[0].language == DefaultLanguage
    ensures s.sessions[0].messages == InitialMessages && s.sessions[0].id == IdFor("session-", loadTime)
  {
    var init := FreshSession(loadTime);
    State([init], init.id, false)
  }

  /** Position of the first session carrying `id`: the index behind `Array.prototype.find`. */
  function FindIndex(ss: seq<Session>, id: string): (r: Option<nat>)
    ensures r.Some? ==> r.value < |ss| && ss[r.value].id == id
    ensures r.Some? ==> forall j :: 0 <= j < r.value ==> ss[j].id != id
    ensures r.None? <==> !HasId(ss, id)
    decreases |ss|
  {
    if |ss| == 0 then None
    else if ss[0].id == id then Some(0)
    else match FindIndex(ss[1..], id)
      case None => None
      case Some(k) => Some(k + 1)
  }

  /**
   * The session the page displays and sends from: the first one whose id is
   * the active id, else the first session; `None` stands for `undefined`,
   * which only an empty collection gives.
   */
  function ActiveSession(s: State): (r: Option<Session>)
    ensures r.None? <==> |s.sessions| == 0
    ensures r.Some? ==> r.value in s.sessions
    ensures HasId(s.sessions, s.activeId) ==>
      r.Some? && r.value.id == s.activeId &&
      exists i :: 0 <= i < |s.sessions| && s.sessions[i] == r.value &&
        forall j :: 0 <= j < i ==> s.sessions[j].id != s.activeId
    ensures |s.sessions| > 0 && !HasId(s.sessions, s.activeId) ==> r == Some(s.sessions[0])
  {
    match FindIndex(s.sessions, s.activeId)
    case Some(i) => Some(s.sessions[i])
    case None => if |s.sessions| > 0 then Some(s.sessions[0]) else None
  }

  /**
   * Applies `f` to every session whose id is `id` and keeps every other
   * session as it is, in place (`sessions.map(...)` with an id test).
   */
  function UpdateWhere(ss: seq<Session>, id: string, f: Session -> Session): (r: seq<Session>)
    ensures |r| == |ss|
    ensures forall i :: 0 <= i < |ss| && ss[i].id == id ==> r[i] == f(ss[i])
    ensures forall i :: 0 <= i < |ss| && ss[i].id != id ==> r[i] == ss[i]
    decreases |ss|
  {
    if |ss| == 0 then []
    else [if ss[0].id == id then f(ss[0]) else ss[0]] + UpdateWhere(ss[1..], id, f)
  }

  /**
   * `updateActiveSession`: rewrites the sessions whose id is the active id and
   * nothing else; with no such session the state is returned unchanged.
   */
  function UpdateActiveSession(s: State, f: Session -> Session): (r: State)
    ensures r.activeId == s.activeId && r.isLoading == s.isLoading
    ensures |r.sessions| == |s.sessions|
    ensures forall i :: 0 <= i < |s.sessions| && s.sessions[i].id == s.activeId ==> r.sessions[i] == f(s.sessions[i])
    ensures forall i :: 0 <= i < |s.sessions| && s.sessions[i].id != s.activeId ==> r.sessions[i] == s.sessions[i]
    ensures !HasId(s.sessions, s.activeId) ==> r == s
  {
    s.(sessions := UpdateWhere(s.sessions, s.activeId, f))
  }

  /**
   * The log after a user message: a log of exactly two messages, whatever
   * they are, is replaced by the user message alone; any other log keeps all
   * its messages and gains the user message at the end.
   */
  function NextLog(log: seq<Message>, userMsg: Message): (r: seq<Message>)
    ensures |log| == 2 ==> r == [userMsg]
    ensures |log| != 2 ==> |r| == |log| + 1 && r[..|log|] == log && r[|log|] == userMsg
  {
    if |log| == 2 then [userMsg] else log + [userMsg]
  }

  /**
   * The title a first message gives a session: the message itself when it
   * has at most 30 characters, else its first 30 characters followed by "...".
   */
  function TruncatedTitle(text: string): (r: string)
    ensures |text| <= TitleLimit ==> r == text
    ensures |text| > TitleLimit ==>
      |r| == TitleLimit + |Ellipsis| && r[..TitleLimit] == text[..TitleLimit] && r[TitleLimit..] == Ellipsis
  {
    Prefix(text, TitleLimit) + (if |text| > TitleLimit then Ellipsis else "")
  }

  /** The user message a send appends: the untrimmed text, under a `user-` id taken at `now`. */
  function UserMessage(text: string, now: nat): (m: Message)
    ensures m.role == User && m.content == Text(text) && m.id == IdFor("user-", now)
  {
    Message(IdFor("user-", now), User, Text(text))
  }

  /**
   * The updater a send applies to the active session: the log rule of
   * `NextLog`, and the title rewritten from the untrimmed text exactly when
   * it is still "New Chat"; id and language are kept.
   */
  function WithUserMessage(sess: Session, text: string, now: nat): (r: Session)
    ensures r.id == sess.id && r.language == sess.language
    ensures r.messages == NextLog(sess.messages, UserMessage(text, now))
    ensures sess.title == NewChatTitle ==> r.title == TruncatedTitle(text)
    ensures sess.title != NewChatTitle ==> r.title == sess.title
  {
    sess.(messages := NextLog(sess.messages, UserMessage(text, now)),
          title := if sess.title == NewChatTitle then TruncatedTitle(text) else sess.title)
  }

  /**
   * First half of a send. Blank text (or no session to send from) changes
   * nothing and issues no request. Otherwise the active session gets the user
   * message and possibly a title, the awaiting flag is raised, and the
   * request carries the text, the displayed session's language, and the
   * active id the reply will later be written under.
   */
  function SendStart(s: State, text: string, now: nat): (r: Started)
    ensures IsBlank(text) || |s.sessions| == 0 ==> r == Started(s, None)
    ensures !IsBlank(text) && |s.sessions| > 0 ==>
      && r.pending == Some(Pending(s.activeId, text, ActiveSession(s).value.language))
      && r.state.isLoading
      && r.state.activeId == s.activeId
      && |r.state.sessions| == |s.sessions|
      && (forall i :: 0 <= i < |s.sessions| && s.sessions[i].id == s.activeId ==>
            r.state.sessions[i] == WithUserMessage(s.sessions[i], text, now))
      && (forall i :: 0 <= i < |s.sessions| && s.sessions[i].id != s.activeId ==>
            r.state.sessions[i] == s.sessions[i])
  {
    if IsBlank(text) then Started(s, None)
    else match ActiveSession(s)
      case None => Started(s, None)
      case Some(active) =>
        var updated := UpdateActiveSession(s, (sess: Session) => WithUserMessage(sess, text, now));
        Started(updated.(isLoading := true), Some(Pending(s.activeId, text, active.language)))
  }

  /** The bot message a gateway outcome becomes: its content, or the fixed apology on failure. */
  function BotMessage(reply: Reply, now: nat): (m: Message)
    ensures m.role == Bot
    ensures reply.Success? ==> m.content == reply.content && m.id == IdFor("bot-", now)
    ensures reply.Failure? ==> m.content == Text(ErrorReply) && m.id == IdFor("error-", now)
  {
    match reply
    case Success(c) => Message(IdFor("bot-", now), Bot, c)
    case Failure => Message(IdFor("error-", now), Bot, Text(ErrorReply))
  }

  /**
   * Second half of a send: exactly one bot message is appended to every
   * session whose id is the one captured when the send started (not the one
   * active now), nothing else changes, and the awaiting flag is cleared.
   */
  function SendResolve(s: State, p: Pending, reply: Reply, now: nat): (r: State)
    ensures !r.isLoading && r.activeId == s.activeId
    ensures |r.sessions| == |s.sessions|
    ensures forall i :: 0 <= i < |s.sessions| && s.sessions[i].id == p.sessionId ==>
      r.sessions[i] == s.sessions[i].(messages := s.sessions[i].messages + [BotMessage(reply, now)])
    ensures forall i :: 0 <= i < |s.sessions| && s.sessions[i].id != p.sessionId ==>
      r.sessions[i] == s.sessions[i]
  {
    var m := BotMessage(reply, now);
    State(UpdateWhere(s.sessions, p.sessionId, (sess: Session) => sess.(messages := sess.messages + [m])), s.activeId, false)
  }

  /**
   * New chat: a fresh session titled "New Chat", in English, holding the
   * welcome script, goes in front of the old sessions and becomes active.
   */
  function NewChat(s: State, now: nat): (r: State)
    ensures |r.sessions| == |s.sessions| + 1 && r.sessions[1..] == s.sessions
    ensures r.sessions[0].title == NewChatTitle && r.sessions[0].language == DefaultLanguage
    ensures r.sessions[0].messages == InitialMessages && r.sessions[0].id == IdFor("session-", now)
    ensures r.activeId == r.sessions[0].id && r.isLoading == s.isLoading
    ensures ActiveSession(r) == Some(r.sessions[0])
  {
    var created := FreshSession(now);
    State([created] + s.sessions, created.id, s.isLoading)
  }

  /**
   * Selecting a session moves the active pointer to `id`, whether or not a
   * session has that id; an unknown id displays the first session instead.
   */
  function SelectSession(s: State, id: string): (r: State)
    ensures r.sessions == s.sessions && r.isLoading == s.isLoading && r.activeId == id
    ensures HasId(s.sessions, id) ==> ActiveSession(r).Some? && ActiveSession(r).value.id == id
    ensures |s.sessions| > 0 && !HasId(s.sessions, id) ==> ActiveSession(r) == Some(s.sessions[0])
  {
    s.(activeId := id)
  }

  /** Changing the language rewrites only the `language` of the sessions carrying the active id. */
  function ChangeLanguage(s: State, language: string): (r: State)
    ensures r.activeId == s.activeId && r.isLoading == s.isLoading
    ensures |r.sessions| == |s.sessions|
    ensures forall i :: 0 <= i < |s.sessions| && s.sessions[i].id == s.activeId ==>
      r.sessions[i] == s.sessions[i].(language := language)
    ensures forall i :: 0 <= i < |s.sessions| && s.sessions[i].id != s.activeId ==>
      r.sessions[i] == s.sessions[i]
  {
    UpdateActiveSession(s, (sess: Session) => sess.(language := language))
  }
}
