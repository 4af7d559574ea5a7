/** Session memory of the Sodam companion agent and its two function
    tools, `remember_topic` and `check_wellbeing`. A tool receives the
    session's user data (absent when the session has none) and returns the
    possibly updated data together with the reply string the LLM sees. */
module Sodam {
  import opened Wrappers
  import opened Strings

  /** Per-session data about the elder. */
  datatype SodamUserData = SodamUserData(
    userName: Option<string>,
    conversationCount: int,
    previousTopics: seq<string>,
    mood: Option<string>)

  /** What a tool call leaves behind: the session data and the reply. */
  datatype ToolOutcome = ToolOutcome(userdata: Option<SodamUserData>, reply: string)

  const RememberOpen: string := "'"
  const RememberClose: string := "'를 기억했어요."
  const WellbeingOpen: string := "어르신의 "
  const WellbeingClose: string := " 상태를 확인했어요."

  /** Data of a new session: no name, no mood, no topics, count zero. */
  function FreshUserData(): SodamUserData
  {
    SodamUserData(None, 0, [], None)
  }

  /** Reply of `remember_topic`. */
  function RememberReply(topic: string): string
  {
    RememberOpen + topic + RememberClose
  }

  /** Reply of `check_wellbeing`. */
  function WellbeingReply(aspect: string): string
  {
    WellbeingOpen + aspect + WellbeingClose
  }

  /** Recovers the text framed by `open` and `close`, if `s` is so framed. */
  function Unframe(s: string, open: string, close: string): Option<string>
  {
    if |open| + |close| <= |s| && StartsWith(s, open) && EndsWith(s, close) then
      Some(s[|open|..|s| - |close|])
    else
      None
  }

  /** `remember_topic`: with session data, appends the topic and counts one
      more conversation; without, changes nothing. The reply is the same
      either way. */
  function RememberTopic(userdata: Option<SodamUserData>, topic: string): (r: ToolOutcome)
    ensures userdata.None? ==> r.userdata.None?
    ensures userdata.Some? ==> r.userdata.Some?
    ensures userdata.Some? ==>
              && r.userdata.value.previousTopics == userdata.value.previousTopics + [topic]
              && r.userdata.value.conversationCount == userdata.value.conversationCount + 1
              && r.userdata.value.userName == userdata.value.userName
              && r.userdata.value.mood == userdata.value.mood
    ensures Unframe(r.reply, RememberOpen, RememberClose) == Some(topic)
  {
    var updated :=
      if userdata.Some? then
        var d := userdata.value;
        Some(d.(previousTopics := d.previousTopics + [topic],
                conversationCount := d.conversationCount + 1))
      else
        None;
    UnframeFramed(RememberOpen, topic, RememberClose);
    ToolOutcome(updated, RememberReply(topic))
  }

  /** `check_wellbeing`: records nothing and acknowledges the aspect. */
  function CheckWellbeing(userdata: Option<SodamUserData>, aspect: string): (r: ToolOutcome)
    ensures r.userdata == userdata
    ensures Unframe(r.reply, WellbeingOpen, WellbeingClose) == Some(aspect)
  {
    UnframeFramed(WellbeingOpen, aspect, WellbeingClose);
    ToolOutcome(userdata, WellbeingReply(aspect))
  }

  /** Framing a text and unframing it gives the text back. */
  lemma UnframeFramed(open: string, text: string, close: string)
    ensures Unframe(open + text + close, open, close) == Some(text)
  {
    var s := open + text + close;
    assert s[..|open|] == open;
    assert s[|s| - |close|..] == close;
    assert s[|open|..|s| - |close|] == text;
  }

  /** The session data after `remember_topic` is called with each of
      `topics` in turn. */
  function RememberAll(userdata: Option<SodamUserData>, topics: seq<string>): Option<SodamUserData>
    decreases |topics|
  {
    if |topics| == 0 then userdata
    else RememberAll(RememberTopic(userdata, topics[0]).userdata, topics[1..])
  }

  /** Remembering a series of topics appends them in call order, counts one
      conversation per topic and keeps name and mood; so from a fresh
      session the count always equals the number of topics remembered. */
  lemma {:induction false} RememberAllAppends(d: SodamUserData, topics: seq<string>)
    ensures RememberAll(Some(d), topics)
         == Some(d.(previousTopics := d.previousTopics + topics,
                    conversationCount := d.conversationCount + |topics|))
    decreases |topics|
  {
    if |topics| == 0 {
      assert d.previousTopics + topics == d.previousTopics;
    } else {
      var d' := RememberTopic(Some(d), topics[0]).userdata.value;
      RememberAllAppends(d', topics[1..]);
      assert d.previousTopics + [topics[0]] + topics[1..] == d.previousTopics + topics;
    }
  }

  /** From a fresh session, the count equals the number of remembered topics. */
  lemma RememberFromFresh(topics: seq<string>)
    ensures RememberAll(Some(FreshUserData()), topics) == Some(SodamUserData(None, |topics|, topics, None))
  {
    RememberAllAppends(FreshUserData(), topics);
    assert [] + topics == topics;
  }

  /** Without session data, no series of calls creates any. */
  lemma {:induction false} RememberAllWithoutData(topics: seq<string>)
    ensures RememberAll(None, topics) == None
    decreases |topics|
  {
    if |topics| > 0 {
      RememberAllWithoutData(topics[1..]);
    }
  }
}
