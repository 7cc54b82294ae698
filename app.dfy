/** The client's session bookkeeping (`App`): a list of sessions, most
    recent first, and the id of the session on screen. Clock readings and
    the server's reply are parameters; local-storage persistence and the
    HTTP round trip are not modelled. */
module App {
  import opened Wrappers
  import opened Json
  import Decimal
  import Analyzer

  const NEW_TITLE := "New Analysis"
  const UPLOAD_PREFIX := "Uploaded file: "
  const APOLOGY := "I'm sorry, I encountered an issue. Please try again."

  /** A message's `type`: absent on user messages, 'result' or 'text' on
      assistant messages. */
  datatype MessageType = Untyped | ResultType | TextType

  datatype Message = Message(role: string, msgType: MessageType, content: Value, timestamp: nat)

  /** A session; its title is whatever value was last assigned to it. */
  datatype Session = Session(id: string, title: Value, messages: seq<Message>, timestamp: nat)

  /** `!!currentSessionId`: a current id is set and is not the empty string. */
  predicate IsSet(id: Option<string>)
  {
    id.Some? && id.value != ""
  }

  /** The session `createNewSession` makes at clock reading `now`. */
  function NewSession(now: nat): (s: Session)
    ensures s.title == Str(NEW_TITLE) && s.messages == [] && s.timestamp == now
    ensures s.id != "" && Decimal.ParseInt(s.id) == Some(now)
  {
    Decimal.ParseFromNat(now);
    Session(Decimal.FromNat(now), Str(NEW_TITLE), [], now)
  }

  /** `sessions.map(s => s.id === id ? f(s) : s)`. */
  function MapById(sessions: seq<Session>, id: string, f: Session -> Session): (r: seq<Session>)
    ensures |r| == |sessions|
    ensures forall i :: 0 <= i < |sessions| && sessions[i].id != id ==> r[i] == sessions[i]
    ensures forall i :: 0 <= i < |sessions| && sessions[i].id == id ==> r[i] == f(sessions[i])
    decreases |sessions|
  {
    if sessions == [] then []
    else [if sessions[0].id == id then f(sessions[0]) else sessions[0]] + MapById(sessions[1..], id, f)
  }

  /** When no session has the id, updating it leaves the list as it is. */
  lemma {:induction false} MapByIdAbsent(sessions: seq<Session>, id: string, f: Session -> Session)
    requires forall i :: 0 <= i < |sessions| ==> sessions[i].id != id
    ensures MapById(sessions, id, f) == sessions
  {
    var r := MapById(sessions, id, f);
    assert forall i :: 0 <= i < |r| ==> r[i] == sessions[i];
  }

  /** `sessions.filter(s => s.id !== id)`. */
  function RemoveById(sessions: seq<Session>, id: string): (r: seq<Session>)
    ensures |r| <= |sessions|
    ensures forall s :: s in r <==> s in sessions && s.id != id
    decreases |sessions|
  {
    if sessions == [] then []
    else (if sessions[0].id == id then [] else [sessions[0]]) + RemoveById(sessions[1..], id)
  }

  /** Filtering distributes over concatenation: the sessions that remain keep
      their relative order. */
  lemma {:induction false} RemoveByIdConcat(a: seq<Session>, b: seq<Session>, id: string)
    ensures RemoveById(a + b, id) == RemoveById(a, id) + RemoveById(b, id)
    decreases |a|
  {
    if a != [] {
      var head := if a[0].id == id then [] else [a[0]];
      var ab := a + b;
      assert ab[0] == a[0] && ab[1..] == a[1..] + b;
      assert RemoveById(ab, id) == head + RemoveById(a[1..] + b, id);
      assert RemoveById(a, id) == head + RemoveById(a[1..], id);
      RemoveByIdConcat(a[1..], b, id);
    } else {
      assert a + b == b;
    }
  }

  /** A list with no session of that id is left exactly as it is; in
      particular deleting twice is the same as deleting once. */
  lemma {:induction false} RemoveByIdAbsent(sessions: seq<Session>, id: string)
    requires forall i :: 0 <= i < |sessions| ==> sessions[i].id != id
    ensures RemoveById(sessions, id) == sessions
    decreases |sessions|
  {
    if sessions != [] {
      RemoveByIdAbsent(sessions[1..], id);
    }
  }

  lemma RemoveByIdIdempotent(sessions: seq<Session>, id: string)
    ensures RemoveById(RemoveById(sessions, id), id) == RemoveById(sessions, id)
  {
    var r := RemoveById(sessions, id);
    forall i | 0 <= i < |r| ensures r[i].id != id {
      assert r[i] in r;
    }
    RemoveByIdAbsent(r, id);
  }

  /** `sessions.find(s => s.id === id)?.messages || []`. */
  function FindMessages(sessions: seq<Session>, id: string): (ms: seq<Message>)
    ensures (forall i :: 0 <= i < |sessions| ==> sessions[i].id != id) ==> ms == []
    ensures forall i ::
      (0 <= i < |sessions| && sessions[i].id == id && forall j :: 0 <= j < i ==> sessions[j].id != id)
      ==> ms == sessions[i].messages
    decreases |sessions|
  {
    if sessions == [] then []
    else if sessions[0].id == id then sessions[0].messages
    else FindMessages(sessions[1..], id)
  }

  /** The content of the user message: the text, preceded by a line naming
      the file when one is attached. */
  function UserContent(text: string, fileName: Option<string>): (c: string)
    ensures fileName.None? ==> c == text
    ensures fileName.Some? ==>
      && |c| == |UPLOAD_PREFIX| + |fileName.value| + 1 + |text|
      && c[..|UPLOAD_PREFIX|] == UPLOAD_PREFIX
      && c[|UPLOAD_PREFIX|..|UPLOAD_PREFIX| + |fileName.value|] == fileName.value
      && c[|UPLOAD_PREFIX| + |fileName.value|] == '\n'
      && c[|c| - |text|..] == text
  {
    match fileName
    case None => text
    case Some(name) => UPLOAD_PREFIX + name + "\n" + text
  }

  /** The assistant message appended after a send: the server's content typed
      'result' for an analysis and 'text' otherwise, or the apology when the
      request failed (`reply` is `None`). */
  function AssistantMessage(reply: Option<Analyzer.Reply>, time: nat): (m: Message)
    ensures m.role == Analyzer.ASSISTANT && m.timestamp == time && m.msgType != Untyped
    ensures reply.Some? ==> m.content == reply.value.content
    ensures reply.Some? ==> (m.msgType == ResultType <==> reply.value.responseType == Analyzer.ANALYSIS)
    ensures reply.None? ==> m.msgType == TextType && m.content == Str(APOLOGY)
  {
    match reply
    case None => Message(Analyzer.ASSISTANT, TextType, Str(APOLOGY), time)
    case Some(data) =>
      Message(Analyzer.ASSISTANT, if data.responseType == Analyzer.ANALYSIS then ResultType else TextType,
              data.content, time)
  }

  /** The title after a reply: the analysis title replaces the placeholder
      once, and nothing else ever changes a title. */
  function NextTitle(title: Value, reply: Option<Analyzer.Reply>): (t: Value)
    ensures title != Str(NEW_TITLE) ==> t == title
    ensures reply.None? || reply.value.responseType != Analyzer.ANALYSIS ==> t == title
    ensures !Truthy(t) ==> t == title
    ensures t == title || (reply.Some? && t == Get(reply.value.content, "title"))
    ensures (title == Str(NEW_TITLE) && reply.Some? && reply.value.responseType == Analyzer.ANALYSIS &&
             Truthy(Get(reply.value.content, "title")))
      ==> t == Get(reply.value.content, "title")
  {
    if reply.Some? && title == Str(NEW_TITLE) && reply.value.responseType == Analyzer.ANALYSIS
       && Truthy(Get(reply.value.content, "title"))
    then Get(reply.value.content, "title")
    else title
  }

  /** The updater that appends the user message. */
  function Appending(m: Message): Session -> Session
  {
    (s: Session) => s.(messages := s.messages + [m])
  }

  /** The updater applied once the reply (or the failure) is known. */
  function Answering(aiMsg: Message, reply: Option<Analyzer.Reply>): Session -> Session
  {
    (s: Session) => s.(title := NextTitle(s.title, reply), messages := s.messages + [aiMsg])
  }

  /** The net effect of a send on the list: each session with the active id
      gains the user message and then the assistant message, and its title
      follows the title rule; every other session is untouched. */
  lemma SendAppendsExchange(sessions: seq<Session>, id: string, userMsg: Message, aiMsg: Message,
                            reply: Option<Analyzer.Reply>)
    ensures var after := MapById(MapById(sessions, id, Appending(userMsg)), id, Answering(aiMsg, reply));
      && |after| == |sessions|
      && (forall i :: 0 <= i < |sessions| && sessions[i].id != id ==> after[i] == sessions[i])
      && (forall i :: 0 <= i < |sessions| && sessions[i].id == id ==>
            after[i] == sessions[i].(title := NextTitle(sessions[i].title, reply),
                                     messages := sessions[i].messages + [userMsg, aiMsg]))
  {
    var mid := MapById(sessions, id, Appending(userMsg));
    forall i | 0 <= i < |sessions| && sessions[i].id == id
      ensures mid[i].id == id && mid[i].messages + [aiMsg] == sessions[i].messages + [userMsg, aiMsg]
    {
      assert mid[i] == Appending(userMsg)(sessions[i]);
    }
  }

  /** The history the client sends is the active session's messages as the
      server sees them: role and content. */
  function ToTurns(messages: seq<Message>): (h: seq<Analyzer.ChatMessage>)
    ensures |h| == |messages|
    ensures forall i :: 0 <= i < |messages| ==>
      h[i] == Analyzer.ChatMessage(messages[i].role, messages[i].content)
    decreases |messages|
  {
    if messages == [] then []
    else [Analyzer.ChatMessage(messages[0].role, messages[0].content)] + ToTurns(messages[1..])
  }

  /** The server treats a send as a follow-up exactly when the session already
      holds an assistant message. */
  lemma SentHistoryMode(messages: seq<Message>)
    ensures Analyzer.IsFollowUp(ToTurns(messages))
      <==> exists i :: 0 <= i < |messages| && messages[i].role == Analyzer.ASSISTANT
  {
    var h := ToTurns(messages);
    if Analyzer.IsFollowUp(h) {
      var i :| 0 <= i < |h| && h[i].role == Analyzer.ASSISTANT;
      assert messages[i].role == Analyzer.ASSISTANT;
    }
  }

  class Workspace {
    var sessions: seq<Session>
    var currentId: Option<string>

    /** The state on mount: the sessions read back from storage, no current id. */
    constructor (saved: seq<Session>)
      ensures sessions == saved && currentId == None
    {
      sessions := saved;
      currentId := None;
    }

    /** `createNewSession`: prepend a fresh session and make it current. */
    method CreateNewSession(now: nat) returns (id: string)
      modifies this
      ensures id == NewSession(now).id && id != ""
      ensures sessions == [NewSession(now)] + old(sessions)
      ensures currentId == Some(id)
    {
      var newSession := NewSession(now);
      sessions := [newSession] + sessions;
      currentId := Some(newSession.id);
      id := newSession.id;
    }

    /** The start-up effect: create a session when there is none, otherwise
      select the first one. */
    method Initialize(now: nat)
      modifies this
      ensures IsSet(old(currentId)) ==> sessions == old(sessions) && currentId == old(currentId)
      ensures !IsSet(old(currentId)) && old(sessions) == [] ==>
        sessions == [NewSession(now)] && currentId == Some(NewSession(now).id)
      ensures !IsSet(old(currentId)) && old(sessions) != [] ==>
        sessions == old(sessions) && currentId == Some(old(sessions)[0].id)
    {
      if |sessions| == 0 && !IsSet(currentId) {
        var _ := CreateNewSession(now);
      } else if |sessions| > 0 && !IsSet(currentId) {
        currentId := Some(sessions[0].id);
      }
    }

    /** `updateCurrentSession(updater, id)`. */
    method UpdateSession(id: string, updater: Session -> Session)
      modifies this
      ensures sessions == MapById(old(sessions), id, updater)
      ensures currentId == old(currentId)
    {
      sessions := MapById(sessions, id, updater);
    }

    /** `setCurrentSessionId`, the sidebar's selection: any id becomes
      current, even one no session has; the sessions are untouched. */
    method SelectSession(id: string)
      modifies this
      ensures currentId == Some(id)
      ensures sessions == old(sessions)
    {
      currentId := Some(id);
    }

    /** `deleteSession`: drop every session with the id; when it was current,
      select the first remaining session, or none. */
    method DeleteSession(id: string)
      modifies this
      ensures sessions == RemoveById(old(sessions), id)
      ensures old(currentId) != Some(id) ==> currentId == old(currentId)
      ensures old(currentId) == Some(id) && sessions != [] ==> currentId == Some(sessions[0].id)
      ensures old(currentId) == Some(id) && sessions == [] ==> currentId == None
    {
      var newSessions := RemoveById(sessions, id);
      if Some(id) == currentId {
        if |newSessions| > 0 {
          currentId := Some(newSessions[0].id);
        } else {
          currentId := None;
        }
      }
      sessions := newSessions;
    }

    /** The part of `handleSend` before the request: make sure a session is
      active, append the user message to it and compute the history to send
      from the sessions as they were rendered. `createdAt` is the clock
      reading of a session created here, `sentAt` that of the user message.
      Returns the captured active id, which `FinishSend` later uses whatever
      the user has selected, created or deleted while the request is pending. */
    method BeginSend(text: string, fileName: Option<string>, createdAt: nat, sentAt: nat)
      returns (active: string, history: seq<Message>)
      modifies this
      ensures IsSet(old(currentId)) ==> active == old(currentId).value && currentId == old(currentId)
      ensures !IsSet(old(currentId)) ==> active == NewSession(createdAt).id && currentId == Some(active)
      ensures history == FindMessages(old(sessions), active)
      ensures var created := if IsSet(old(currentId)) then old(sessions) else [NewSession(createdAt)] + old(sessions);
        sessions == MapById(created, active,
                            Appending(Message(Analyzer.USER, Untyped, Str(UserContent(text, fileName)), sentAt)))
    {
      var rendered := sessions;
      var activeId := currentId;
      if !IsSet(activeId) {
        var id := CreateNewSession(createdAt);
        activeId := Some(id);
      }
      active := activeId.value;

      var userMsg := Message(Analyzer.USER, Untyped, Str(UserContent(text, fileName)), sentAt);
      var updatedMessages := FindMessages(rendered, active) + [userMsg];
      UpdateSession(active, Appending(userMsg));

      history := updatedMessages[..|updatedMessages| - 1];
    }

    /** The part of `handleSend` after the request settles: append the reply
      (or, with `reply == None`, the apology) to the sessions with the
      captured id `active` and apply the title rule. The current id plays no
      part, and when the session was deleted meanwhile the reply is dropped. */
    method FinishSend(active: string, reply: Option<Analyzer.Reply>, repliedAt: nat)
      modifies this
      ensures sessions == MapById(old(sessions), active, Answering(AssistantMessage(reply, repliedAt), reply))
      ensures (forall i :: 0 <= i < |old(sessions)| ==> old(sessions)[i].id != active) ==>
        sessions == old(sessions)
      ensures currentId == old(currentId)
    {
      var aiMsg := AssistantMessage(reply, repliedAt);
      if forall i :: 0 <= i < |sessions| ==> sessions[i].id != active {
        MapByIdAbsent(sessions, active, Answering(aiMsg, reply));
      }
      UpdateSession(active, Answering(aiMsg, reply));
    }
  }
}
