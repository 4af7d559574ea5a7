/** Room-level helpers of the simple voice agent: deriving the ward id from
    a LiveKit room name, the headers for calls to the internal API, and the
    session data created when the agent joins a room. */
module Room {
  import opened Wrappers
  import opened Strings
  import Transcript

  const CallPrefix: string := "call"
  const Underscore: char := '_'
  const ContentType: string := "Content-Type"
  const JsonMediaType: string := "application/json"
  const Authorization: string := "Authorization"
  const BearerPrefix: string := "Bearer "

  /** `name` has the shape `call_{w}` or `call_{w}_{anything}` with a
      non-empty, underscore-free `w`. */
  ghost predicate IsCallRoomName(name: string, w: string)
  {
    && w != ""
    && Underscore !in w
    && StartsWith(name, CallPrefix + [Underscore] + w)
    && (|name| == |CallPrefix| + 1 + |w| || name[|CallPrefix| + 1 + |w|] == Underscore)
  }

  /** The ward id of a room: the second `_`-piece of a `call_{ward}_{ts}`
      name, otherwise the whole room name. */
  function ExtractWardId(roomName: string): (wardId: string)
    ensures Underscore !in roomName ==> wardId == roomName
    ensures wardId == roomName
         || (|Split(roomName, Underscore)| >= 2 && wardId == Split(roomName, Underscore)[1])
    ensures wardId != roomName ==> IsCallRoomName(roomName, wardId)
  {
    if Underscore in roomName then
      var parts := Split(roomName, Underscore);
      if |parts| >= 2 && parts[0] == CallPrefix then
        var wardId := parts[1];
        if wardId != "" && |wardId| > 0 then
          CallShape(roomName);
          wardId
        else
          roomName
      else
        roomName
    else
      roomName
  }

  /** When the first piece of a name is `call`, the name is `call_`
      followed by the rest, and the second piece starts that rest and ends
      at its end or before an underscore. */
  lemma CallShape(roomName: string)
    requires Underscore in roomName
    requires Split(roomName, Underscore)[0] == CallPrefix
    ensures |Split(roomName, Underscore)| >= 2
    ensures var w := Split(roomName, Underscore)[1];
            StartsWith(roomName, CallPrefix + [Underscore] + w)
            && (|roomName| == |CallPrefix| + 1 + |w| || roomName[|CallPrefix| + 1 + |w|] == Underscore)
  {
    var i := IndexOf(roomName, Underscore);
    assert |roomName[..i]| == 4;
    var rest := roomName[i + 1..];
    assert Split(roomName, Underscore) == [roomName[..i]] + Split(rest, Underscore);
    SplitHead(rest, Underscore);
    var w := Split(rest, Underscore)[0];
    assert roomName == CallPrefix + [Underscore] + rest;
    assert roomName[..|CallPrefix| + 1 + |w|] == CallPrefix + [Underscore] + w;
  }

  /** Every `call_{w}` / `call_{w}_{...}` name yields exactly `w`. */
  lemma ExtractCallRoomName(w: string, rest: string)
    requires w != "" && Underscore !in w
    requires rest == "" || rest[0] == Underscore
    ensures ExtractWardId(CallPrefix + [Underscore] + w + rest) == w
  {
    var name := CallPrefix + [Underscore] + w + rest;
    assert Underscore !in CallPrefix;
    IndexOfAfterPrefix(CallPrefix, Underscore, w + rest);
    assert name == CallPrefix + [Underscore] + (w + rest);
    assert name[..4] == CallPrefix;
    assert name[5..] == w + rest;
    assert Split(name, Underscore) == [CallPrefix] + Split(w + rest, Underscore);
    if rest == "" {
      assert w + rest == w;
      assert Split(w, Underscore) == [w];
    } else {
      assert w + rest == w + [Underscore] + rest[1..];
      IndexOfAfterPrefix(w, Underscore, rest[1..]);
      assert (w + rest)[..|w|] == w;
      assert Split(w + rest, Underscore)[0] == w;
    }
  }

  /** A name that does not begin with `call_` is its own ward id. */
  lemma ExtractWithoutCallPrefix(roomName: string)
    requires !StartsWith(roomName, CallPrefix + [Underscore])
    ensures ExtractWardId(roomName) == roomName
  {
    StartsWithShorter(roomName, CallPrefix + [Underscore], ExtractWardId(roomName));
  }

  /** `call_` followed by an empty ward segment (`call_`, `call__x`) falls
      back to the whole name. */
  lemma ExtractEmptyWardSegment(rest: string)
    requires rest == "" || rest[0] == Underscore
    ensures ExtractWardId(CallPrefix + [Underscore] + rest) == CallPrefix + [Underscore] + rest
  {
    ParsedWardIdFollowsPrefix(CallPrefix + [Underscore] + rest);
  }

  /** A parsed ward id is the text right after `call_`, so its first
      character is the sixth character of the room name. */
  lemma ParsedWardIdFollowsPrefix(roomName: string)
    ensures var w := ExtractWardId(roomName);
            w != roomName ==> |roomName| > 5 && roomName[5] == w[0]
  {
    var w := ExtractWardId(roomName);
    if w != roomName {
      assert roomName[..5 + |w|] == CallPrefix + [Underscore] + w;
      assert roomName[5] == roomName[..5 + |w|][5];
    }
  }

  /** Headers for internal API calls: always a JSON content type, plus a
      bearer `Authorization` header when an internal token is configured
      (unset and empty count as not configured). */
  function AuthHeaders(internalToken: Option<string>): (headers: map<string, string>)
    ensures ContentType in headers && headers[ContentType] == JsonMediaType
    ensures Authorization in headers <==> internalToken.Some? && internalToken.value != ""
    ensures Authorization in headers ==> headers[Authorization] == BearerPrefix + internalToken.value
    ensures headers.Keys <= {ContentType, Authorization}
  {
    var headers := map[ContentType := JsonMediaType];
    if internalToken.Some? && internalToken.value != "" then
      headers[Authorization := BearerPrefix + internalToken.value]
    else
      headers
  }

  /** The session data the agent creates on joining a room: the ward id
      parsed from the room name, the room name itself as call id, and an
      empty transcript. */
  function StartSession(roomName: string): (u: Transcript.SessionUserdata)
    ensures u.callId == roomName
    ensures u.wardId == ExtractWardId(roomName)
    ensures u.wardId == roomName || IsCallRoomName(roomName, u.wardId)
    ensures u.transcripts == []
  {
    var wardId := ExtractWardId(roomName);
    var callId := roomName;
    Transcript.SessionUserdata(wardId, callId, [])
  }
}
