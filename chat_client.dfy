/** The state the chat page (`FlexBaseChat` in public/js/chat.js) keeps
    between events: the open chat, the typing flag, the chat list, the
    message elements shown, the send button, and what it sent to the server
    and the socket. Server answers are parameters; the DOM beyond these
    values is left out. */
module ChatClient {
  import opened Common
  import opened Text
  import opened SocialLists
  import opened ChatRules

  // ---------------------------------------------------------------- member count

  /** `new Set(participants)` */
  function Members(participants: seq<Id>): (r: set<Id>)
    ensures forall p :: p in r <==> p in participants
  {
    set p | p in participants
  }

  /** `[...new Set(participants)].length` */
  function MemberCount(participants: seq<Id>): nat {
    |Members(participants)|
  }

  /** The count never exceeds the list, and equals it exactly when no
      participant is listed twice. */
  lemma {:induction false} MemberCountDistinct(s: seq<Id>)
    ensures MemberCount(s) <= |s|
    ensures MemberCount(s) == |s| <==> Distinct(s)
  {
    if s == [] {
      assert Members(s) == {};
    } else {
      var t, x := s[..|s| - 1], s[|s| - 1];
      assert s == t + [x];
      MemberCountDistinct(t);
      var ms, mt := multiset(s), multiset(t);
      assert ms == mt + multiset{x};
      if x in t {
        assert Members(s) == Members(t);
        assert mt[x] >= 1;
        assert ms[x] >= 2;
        assert !Distinct(s);
      } else {
        assert Members(s) == Members(t) + {x};
        assert mt[x] == 0 && ms[x] == 1;
        assert Distinct(s) <==> Distinct(t) by {
          forall y | y in t
            ensures ms[y] == mt[y]
          {
          }
        }
      }
    }
  }

  /** A user joining the community chat (the server's add-if-absent) raises
      the count by one exactly when they were not a member. */
  lemma MemberCountJoin(s: seq<Id>, x: Id)
    ensures MemberCount(AddIfAbsent(s, x)) == MemberCount(s) + (if x in s then 0 else 1)
  {
    if x !in s {
      assert Members(s + [x]) == Members(s) + {x};
    }
  }

  // ---------------------------------------------------------------- socket rooms

  /** What the page emits on its socket. */
  datatype SocketEvent = Typing(chat: Id, on: bool) | JoinChat(chat: Id) | LeaveChat(chat: Id)

  /** The rooms the socket has asked to be in after `events`. */
  function Rooms(joined: set<Id>, events: seq<SocketEvent>): set<Id>
    decreases |events|
  {
    if events == [] then joined
    else
      var e := events[0];
      var next := if e.JoinChat? then joined + {e.chat} else if e.LeaveChat? then joined - {e.chat} else joined;
      Rooms(next, events[1..])
  }

  /** `selectChat` as written: `currentChatId` is set to the new chat before
      the "leave previous chat room" step, so it leaves the new room and
      then joins it. */
  function RoomEventsAsWritten(next: Id): seq<SocketEvent> {
    [LeaveChat(next), JoinChat(next)]
  }

  /** Room events of `selectChat` as intended: leave the previous chat's room,
      if any, then join the new one. */
  function RoomEvents(previous: Option<Id>, next: Id): (r: seq<SocketEvent>)
    ensures |r| >= 1 && r[|r| - 1] == JoinChat(next)
  {
    (if previous.Some? then [LeaveChat(previous.value)] else []) + [JoinChat(next)]
  }

  /** As written, switching from one chat to another never leaves the first
      chat's room: the socket stays in every room it ever opened. */
  lemma RoomsAsWrittenAccumulate(joined: set<Id>, next: Id)
    ensures Rooms(joined, RoomEventsAsWritten(next)) == joined + {next}
    ensures Rooms({1}, RoomEventsAsWritten(2)) == {1, 2}
  {
    var e := RoomEventsAsWritten(next);
    assert e[1..] == [JoinChat(next)];
    assert e[1..][1..] == [];
    assert Rooms(joined - {next}, [JoinChat(next)]) == joined - {next} + {next} by {
      assert [JoinChat(next)][1..] == [];
    }
    var f := RoomEventsAsWritten(2);
    assert f[1..] == [JoinChat(2)];
    assert f[1..][1..] == [];
  }

  /** With the intended events the socket is in the new chat's room and no
      longer in the previous one's; a page that keeps to one room keeps to
      one room. */
  lemma RoomEventsSwitch(joined: set<Id>, previous: Option<Id>, next: Id)
    ensures Rooms(joined, RoomEvents(previous, next))
              == (if previous.Some? then joined - {previous.value} else joined) + {next}
    ensures (if previous.Some? then joined <= {previous.value} else joined == {}) ==>
              Rooms(joined, RoomEvents(previous, next)) == {next}
  {
    var e := RoomEvents(previous, next);
    if previous.Some? {
      var p := previous.value;
      assert e == [LeaveChat(p), JoinChat(next)];
      assert e[1..] == [JoinChat(next)];
      assert e[1..][1..] == [];
      assert Rooms(joined - {p}, [JoinChat(next)]) == joined - {p} + {next} by {
        assert [JoinChat(next)][1..] == [];
      }
    } else {
      assert e == [JoinChat(next)];
      assert e[1..] == [];
    }
  }

  // ---------------------------------------------------------------- sending

  /** A message element in the list: the optimistic one a send adds before
      the server answers, or a saved message. */
  datatype MessageKey = Temp(n: nat) | Saved(id: Id)

  /** How the POST of a message ended. */
  datatype SendOutcome = Delivered(message: Id) | Refused(reason: Option<string>) | NetworkError

  /** The message list and alerts after the POST settled, and whether the
      handler ended by throwing. */
  datatype SendView = SendView(shown: seq<MessageKey>, alerts: seq<string>, threw: bool)

  /** `messageElement.remove()` for the optimistic element. */
  function RemoveKey(shown: seq<MessageKey>, k: MessageKey): (r: seq<MessageKey>)
    ensures k !in r
    ensures forall x :: x in r <==> x in shown && x != k
  {
    if shown == [] then []
    else if shown[0] == k then RemoveKey(shown[1..], k)
    else [shown[0]] + RemoveKey(shown[1..], k)
  }

  function RefusalText(reason: Option<string>): string {
    "Failed to send message: " + (if reason.Some? && reason.value != "" then reason.value else "Unknown error")
  }

  const NetworkErrorText := "Error sending message. Please try again."

  /** The settling of `sendMessage` as written: on a network error the
      `catch` block names `tempId`, which was declared inside the `try`
      block, so it throws a ReferenceError before removing the optimistic
      element or alerting. */
  function SettleSendAsWritten(shown: seq<MessageKey>, temp: MessageKey, outcome: SendOutcome): SendView {
    match outcome
    case Delivered(id) => SendView(RemoveKey(shown, temp) + [Saved(id)], [], false)
    case Refused(reason) => SendView(RemoveKey(shown, temp), [RefusalText(reason)], false)
    case NetworkError => SendView(shown, [], true)
  }

  /** The settling as intended: the optimistic element goes whatever the
      outcome; a delivered message is shown as saved, and a failure is
      alerted. */
  function SettleSend(shown: seq<MessageKey>, temp: MessageKey, outcome: SendOutcome): (v: SendView)
    requires temp.Temp?
    ensures temp !in v.shown && !v.threw
    ensures outcome.Delivered? <==> v.alerts == []
    ensures outcome.Delivered? ==> Saved(outcome.message) in v.shown
  {
    match outcome
    case Delivered(id) => SendView(RemoveKey(shown, temp) + [Saved(id)], [], false)
    case Refused(reason) => SendView(RemoveKey(shown, temp), [RefusalText(reason)], false)
    case NetworkError => SendView(RemoveKey(shown, temp), [NetworkErrorText], false)
  }

  /** As written, a network error leaves the optimistic message on screen
      with no alert, where the intended handler removes it and alerts; the
      two agree on every other outcome. */
  lemma SettleSendAsWrittenKeepsTemp(shown: seq<MessageKey>, temp: MessageKey, outcome: SendOutcome)
    requires temp.Temp? && temp in shown
    ensures outcome.NetworkError? ==>
              var w := SettleSendAsWritten(shown, temp, outcome);
              temp in w.shown && w.alerts == [] && w.threw
              && temp !in SettleSend(shown, temp, outcome).shown
    ensures !outcome.NetworkError? ==> SettleSendAsWritten(shown, temp, outcome) == SettleSend(shown, temp, outcome)
  {
  }

  // ---------------------------------------------------------------- the page

  /** A POST of a message. */
  datatype Post = Post(chat: Id, content: string)

  /** The typing flags among the socket events, in order. */
  function TypingFlags(events: seq<SocketEvent>): (r: seq<bool>)
    ensures |r| <= |events|
  {
    if events == [] then []
    else
      var last := events[|events| - 1];
      TypingFlags(events[..|events| - 1]) + (if last.Typing? then [last.on] else [])
  }

  /** Which flags those are: none without a typing event, and each one is
      the flag of some typing event. */
  lemma {:induction false} TypingFlagsMembers(events: seq<SocketEvent>)
    ensures TypingFlags(events) == [] <==> forall i :: 0 <= i < |events| ==> !events[i].Typing?
    ensures forall b :: b in TypingFlags(events) <==>
              exists i :: 0 <= i < |events| && events[i].Typing? && events[i].on == b
    decreases |events|
  {
    if events != [] {
      var init := events[..|events| - 1];
      TypingFlagsMembers(init);
      assert forall i :: 0 <= i < |init| ==> init[i] == events[i];
    }
  }

  /** Typing flags alternate, starting with `true`. */
  predicate Alternating(flags: seq<bool>) {
    (|flags| > 0 ==> flags[0]) && forall k :: 0 < k < |flags| ==> flags[k] != flags[k - 1]
  }

  /** The page's fields at one moment: the open chat, the typing flag, the
      chat list, the message elements, the input text, the send button, and
      what went out (socket events, POSTs of messages, alerts, user
      searches) with whether search results are shown. The optimistic
      element of the n-th POST is `Temp(n)`. */
  datatype PageState = PageState(
    currentChat: Option<Id>,
    isTyping: bool,
    chats: seq<Id>,
    shown: seq<MessageKey>,
    input: string,
    sendDisabled: bool,
    emitted: seq<SocketEvent>,
    posted: seq<Post>,
    alerts: seq<string>,
    searchShown: bool,
    searches: seq<string>)

  /** The page's invariant: the typing events the socket saw alternate and
      the flag says which was last, typing happens in an open chat, and the
      button is disabled only while a POST is in flight. */
  predicate Consistent(p: PageState) {
    var flags := TypingFlags(p.emitted);
    && Alternating(flags)
    && (p.isTyping <==> |flags| > 0 && flags[|flags| - 1])
    && (p.isTyping ==> p.currentChat.Some?)
    && (p.sendDisabled ==> |p.posted| > 0)
  }

  /** `selectChat(chat)`, corrected: the socket leaves the previous chat's
      room (`RoomEvents`; the page as written leaves the new chat's room
      instead, `RoomEventsAsWritten`) and joins the new one, the chat becomes
      current, and its messages replace the list when they load. */
  function Selected(p: PageState, chat: Id, loaded: Option<seq<Id>>): PageState {
    p.(currentChat := Some(chat),
       emitted := p.emitted + RoomEvents(p.currentChat, chat),
       shown := if loaded.Some? then SavedKeys(loaded.value) else p.shown)
  }

  /** `handleTyping`: `true` is emitted only when the flag turns on in an
      open chat. */
  function TypingStarted(p: PageState): PageState {
    if !p.isTyping && p.currentChat.Some? then
      p.(isTyping := true, emitted := p.emitted + [Typing(p.currentChat.value, true)])
    else p
  }

  /** `stopTyping`: `false` is emitted, to the open chat, only when the flag
      was on. */
  function TypingStopped(p: PageState): PageState {
    if p.isTyping && p.currentChat.Some? then
      p.(isTyping := false, emitted := p.emitted + [Typing(p.currentChat.value, false)])
    else p
  }

  /** `handleNewMessage`: a message pushed by the socket is shown only in
      its own chat, and only when it is not shown already. */
  function MessageArrived(p: PageState, chat: Id, message: Id): PageState {
    if p.currentChat == Some(chat) && Saved(message) !in p.shown then
      p.(shown := p.shown + [Saved(message)])
    else p
  }

  /** `startChatWithUser` once the server answered with the private chat:
      the chat goes to the front of the list unless it is there already,
      then it is selected. */
  function ChatStarted(p: PageState, chat: Id, loaded: Option<seq<Id>>): PageState {
    Selected(p.(chats := if chat in p.chats then p.chats else [chat] + p.chats), chat, loaded)
  }

  /** `handleUserSearch`: a query shorter than two code units hides the
      results and asks nothing of the server; otherwise the query goes out,
      and when the server answers with `found` users the results are shown
      if there is at least one and hidden otherwise. */
  function Searched(p: PageState, query: string, found: Option<nat>): PageState {
    if Utf16Length(query) < 2 then p.(searchShown := false)
    else
      var q := p.(searches := p.searches + [query]);
      if found.Some? then q.(searchShown := found.value > 0) else q
  }

  /** The guards of `sendMessage`: a blank input, no chat open, or the
      button disabled. */
  predicate SendBlocked(p: PageState) {
    Trim(p.input) == "" || p.currentChat.None? || p.sendDisabled
  }

  /** `sendMessage` up to the request: the button is disabled, an
      optimistic element is shown, the input is cleared and the trimmed text
      is posted to the open chat. */
  function SendBegun(p: PageState): PageState {
    if SendBlocked(p) then p
    else
      p.(sendDisabled := true,
         shown := p.shown + [Temp(|p.posted|)],
         input := "",
         posted := p.posted + [Post(p.currentChat.value, Trim(p.input))])
  }

  /** `sendMessage` after the POST settled, corrected: the optimistic
      element goes, a delivered message is shown and typing stops, a failure
      is alerted (`SettleSend`; as written the `catch` block throws instead,
      `SettleSendAsWritten`); the `finally` block enables the button again. */
  function SendFinished(p: PageState, outcome: SendOutcome): PageState
    requires |p.posted| > 0
  {
    var v := SettleSend(p.shown, Temp(|p.posted| - 1), outcome);
    var q := p.(shown := v.shown, alerts := p.alerts + v.alerts);
    (if outcome.Delivered? then TypingStopped(q) else q).(sendDisabled := false)
  }

  class ChatPage {
    var currentChat: Option<Id>
    var isTyping: bool
    var chats: seq<Id>
    var shown: seq<MessageKey>
    var input: string
    var sendDisabled: bool
    var emitted: seq<SocketEvent>
    var posted: seq<Post>
    var alerts: seq<string>
    var searchShown: bool
    var searches: seq<string>

    function State(): PageState
      reads this
    {
      PageState(currentChat, isTyping, chats, shown, input, sendDisabled, emitted, posted, alerts,
                searchShown, searches)
    }

    predicate Valid()
      reads this
    {
      Consistent(State())
    }

    constructor ()
      ensures Valid()
      ensures State() == PageState(None, false, [], [], "", false, [], [], [], false, [])
    {
      currentChat := None;
      isTyping := false;
      chats := [];
      shown := [];
      input := "";
      sendDisabled := false;
      emitted := [];
      posted := [];
      alerts := [];
      searchShown := false;
      searches := [];
    }

    /** The input box changes. */
    method Type(text: string)
      requires Valid()
      modifies this
      ensures Valid()
      ensures State() == old(State()).(input := text)
    {
      input := text;
    }

    method SelectChat(chat: Id, loaded: Option<seq<Id>>)
      requires Valid()
      modifies this
      ensures Valid()
      ensures State() == Selected(old(State()), chat, loaded)
    {
      ghost var next := Selected(State(), chat, loaded);
      SelectedKeepsConsistent(State(), chat, loaded);
      emitted := emitted + RoomEvents(currentChat, chat);
      currentChat := Some(chat);
      if loaded.Some? {
        shown := SavedKeys(loaded.value);
      }
      assert State() == next;
    }

    /** The one-second timer that calls `StopTyping` afterwards is left to
        the caller. */
    method HandleTyping()
      requires Valid()
      modifies this
      ensures Valid()
      ensures State() == TypingStarted(old(State()))
    {
      TypingStartedKeepsConsistent(State());
      if !isTyping && currentChat.Some? {
        isTyping := true;
        emitted := emitted + [Typing(currentChat.value, true)];
      }
    }

    method StopTyping()
      requires Valid()
      modifies this
      ensures Valid()
      ensures State() == TypingStopped(old(State()))
    {
      TypingStoppedKeepsConsistent(State());
      if isTyping && currentChat.Some? {
        isTyping := false;
        emitted := emitted + [Typing(currentChat.value, false)];
      }
    }

    method HandleNewMessage(chat: Id, message: Id)
      requires Valid()
      modifies this
      ensures Valid()
      ensures State() == MessageArrived(old(State()), chat, message)
    {
      if currentChat == Some(chat) && Saved(message) !in shown {
        shown := shown + [Saved(message)];
      }
    }

    method StartChatWithUser(chat: Id, loaded: Option<seq<Id>>)
      requires Valid()
      modifies this
      ensures Valid()
      ensures State() == ChatStarted(old(State()), chat, loaded)
    {
      ghost var listed := old(State()).(chats := if chat in chats then chats else [chat] + chats);
      if chat !in chats {
        chats := [chat] + chats;
      }
      assert State() == listed;
      SelectChat(chat, loaded);
    }

    method HandleUserSearch(query: string, found: Option<nat>)
      requires Valid()
      modifies this
      ensures Valid()
      ensures State() == Searched(old(State()), query, found)
    {
      if Utf16Length(query) < 2 {
        searchShown := false;
        return;
      }
      searches := searches + [query];
      if found.Some? {
        searchShown := found.value > 0;
      }
    }

    method BeginSend()
      requires Valid()
      modifies this
      ensures Valid()
      ensures State() == SendBegun(old(State()))
    {
      var content := Trim(input);
      if content == "" || currentChat.None? {
        return;
      }
      if sendDisabled {
        return;
      }
      sendDisabled := true;
      shown := shown + [Temp(|posted|)];
      input := "";
      posted := posted + [Post(currentChat.value, content)];
    }

    method FinishSend(outcome: SendOutcome)
      requires Valid() && sendDisabled
      modifies this
      ensures Valid()
      ensures State() == SendFinished(old(State()), outcome)
    {
      SendFinishedKeepsConsistent(State(), outcome);
      var v := SettleSend(shown, Temp(|posted| - 1), outcome);
      // stopping typing touches only the typing flag and the socket, so it
      // may come before the message list changes
      if outcome.Delivered? {
        StopTyping();
      }
      shown := v.shown;
      alerts := alerts + v.alerts;
      sendDisabled := false;
    }
  }

  lemma SelectedKeepsConsistent(p: PageState, chat: Id, loaded: Option<seq<Id>>)
    requires Consistent(p)
    ensures Consistent(Selected(p, chat, loaded))
  {
    var e := RoomEvents(p.currentChat, chat);
    assert forall k :: 0 <= k < |e| ==> !e[k].Typing?;
    NoTypingAppended(p.emitted, e);
    var q := Selected(p, chat, loaded);
    assert TypingFlags(q.emitted) == TypingFlags(p.emitted);
  }

  lemma TypingStartedKeepsConsistent(p: PageState)
    requires Consistent(p)
    ensures Consistent(TypingStarted(p))
  {
    if !p.isTyping && p.currentChat.Some? {
      TypingAppended(p.emitted, Typing(p.currentChat.value, true));
      AlternatingSnoc(TypingFlags(p.emitted), true);
    }
  }

  lemma TypingStoppedKeepsConsistent(p: PageState)
    requires Consistent(p)
    ensures Consistent(TypingStopped(p))
  {
    if p.isTyping && p.currentChat.Some? {
      TypingAppended(p.emitted, Typing(p.currentChat.value, false));
      AlternatingSnoc(TypingFlags(p.emitted), false);
    }
  }

  lemma SendFinishedKeepsConsistent(p: PageState, outcome: SendOutcome)
    requires Consistent(p) && p.sendDisabled
    ensures Consistent(SendFinished(p, outcome))
  {
    var v := SettleSend(p.shown, Temp(|p.posted| - 1), outcome);
    var q := p.(shown := v.shown, alerts := p.alerts + v.alerts);
    TypingStoppedKeepsConsistent(q);
  }

  /** The rendered list of loaded messages. */
  function SavedKeys(ids: seq<Id>): (r: seq<MessageKey>)
    ensures |r| == |ids| && forall k :: 0 <= k < |r| ==> r[k] == Saved(ids[k])
  {
    seq(|ids|, k requires 0 <= k < |ids| => Saved(ids[k]))
  }

  /** Starting a chat keeps the chat list free of duplicates, puts the
      chat in it and opens it. */
  lemma ChatStartedKeepsChatsDistinct(p: PageState, chat: Id, loaded: Option<seq<Id>>)
    requires Distinct(p.chats)
    ensures var q := ChatStarted(p, chat, loaded);
            Distinct(q.chats) && chat in q.chats && q.currentChat == Some(chat)
            && (chat in p.chats ==> q.chats == p.chats)
  {
    if chat !in p.chats {
      assert multiset([chat] + p.chats) == multiset{chat} + multiset(p.chats);
    }
  }

  /** The send button guards against a double submission: a second press
      while the first POST is in flight changes nothing. */
  lemma SendBegunIdempotent(p: PageState)
    ensures SendBegun(SendBegun(p)) == SendBegun(p)
  {
  }

  /** A message sent and delivered: the input is cleared, the trimmed text
      was posted to the open chat, the optimistic element is gone, the saved
      message is shown, nothing is alerted and the button is enabled. */
  lemma SendRoundTrip(p: PageState, id: Id)
    requires !SendBlocked(p)
    ensures var q := SendFinished(SendBegun(p), Delivered(id));
            q.input == "" && q.posted == p.posted + [Post(p.currentChat.value, Trim(p.input))]
            && Temp(|p.posted|) !in q.shown && Saved(id) in q.shown
            && q.alerts == p.alerts && !q.sendDisabled && !q.isTyping
  {
  }

  /** A refused or failed send alerts once, removes its optimistic element
      and enables the button again. */
  lemma SendFailureAlerts(p: PageState, outcome: SendOutcome)
    requires !SendBlocked(p) && !outcome.Delivered?
    ensures var q := SendFinished(SendBegun(p), outcome);
            |q.alerts| == |p.alerts| + 1 && Temp(|p.posted|) !in q.shown && !q.sendDisabled
            && q.emitted == p.emitted
  {
  }

  /** A message pushed twice by the socket is shown once, and it is shown
      exactly when it was already or it belongs to the open chat. */
  lemma MessageArrivedIdempotent(p: PageState, chat: Id, message: Id)
    ensures var q := MessageArrived(p, chat, message);
            MessageArrived(q, chat, message) == q
            && (Saved(message) in q.shown <==> Saved(message) in p.shown || p.currentChat == Some(chat))
  {
  }

  /** A flag that differs from the last one (or a first flag that is
      `true`) keeps the flags alternating. */
  lemma AlternatingSnoc(flags: seq<bool>, b: bool)
    requires Alternating(flags)
    requires if |flags| > 0 then flags[|flags| - 1] != b else b
    ensures Alternating(flags + [b])
  {
  }

  /** One typing event adds its flag. */
  lemma TypingAppended(events: seq<SocketEvent>, e: SocketEvent)
    requires e.Typing?
    ensures TypingFlags(events + [e]) == TypingFlags(events) + [e.on]
  {
    assert (events + [e])[..|events|] == events;
  }

  /** Events without typing flags leave the flags as they were. */
  lemma {:induction false} NoTypingAppended(events: seq<SocketEvent>, more: seq<SocketEvent>)
    requires forall k :: 0 <= k < |more| ==> !more[k].Typing?
    ensures TypingFlags(events + more) == TypingFlags(events)
    decreases |more|
  {
    if more != [] {
      var m := more[..|more| - 1];
      assert (events + more)[..|events + more| - 1] == events + m;
      NoTypingAppended(events, m);
    } else {
      assert events + more == events;
    }
  }

}
