/** The landing page's join form: joining a room from a typed room id or
    a pasted room link. The URL parser is outside
    the model: `urlPathname` gives the pathname of a text that parses as a
    URL, and `None` when parsing throws. */
module HomePage {
  import opened Common

  const EmptyInputError := "Please enter a Room ID or URL"

  /** Where the page sends the browser. */
  function RoomPath(roomId: string): (p: string)
    ensures |p| == 6 + |roomId| && p[..6] == "/room/" && p[6..] == roomId
  {
    "/room/" + roomId
  }

  /** The room id taken from a trimmed, non-blank input: a text containing
      "/room/" that parses as a URL gives the pathname segment right after
      the first "room" segment, when there is one; anything else is kept. */
  function TargetRoomId(trimmed: string, urlPathname: string -> Option<string>): string
  {
    if !Contains(trimmed, "/room/") then trimmed
    else
      var pathname := urlPathname(trimmed);
      if pathname.None? then trimmed
      else
        var parts := Split(pathname.value, '/');
        var idIndex := IndexOf(parts, "room") + 1;
        if idIndex > 0 && idIndex < |parts| then parts[idIndex] else trimmed
  }

  datatype JoinResult = ShowError(message: string) | NavigateTo(path: string)

  /** `joinRoom`: a blank input is refused; otherwise the browser goes to
      the room of the extracted id. */
  function JoinTarget(input: string, urlPathname: string -> Option<string>): JoinResult
  {
    var trimmed := Trim(input, JsWhitespace);
    if trimmed == "" then ShowError(EmptyInputError)
    else NavigateTo(RoomPath(TargetRoomId(trimmed, urlPathname)))
  }

  // ---------------------------------------------------------------------
  // Properties
  // ---------------------------------------------------------------------

  /** The input is refused, with the one error message, exactly when it is
      empty or only whitespace; otherwise the page navigates. */
  lemma BlankInputRefused(input: string, urlPathname: string -> Option<string>)
    ensures JoinTarget(input, urlPathname) == ShowError(EmptyInputError) <==> AllIn(input, JsWhitespace)
    ensures !AllIn(input, JsWhitespace) ==> JoinTarget(input, urlPathname).NavigateTo?
  {
    TrimEmptyIff(input, JsWhitespace);
  }

  /** Every navigation goes to "/room/" followed by the chosen id. */
  lemma DestinationIsRoomPath(input: string, urlPathname: string -> Option<string>)
    ensures JoinTarget(input, urlPathname).NavigateTo? ==>
      var p := JoinTarget(input, urlPathname).path;
      p[..6] == "/room/" && p[6..] == TargetRoomId(Trim(input, JsWhitespace), urlPathname)
  {
  }

  /** A trimmed input without "/room/", or one that does not parse as a
      URL, is the room id as it stands. */
  lemma PlainInputKept(trimmed: string, urlPathname: string -> Option<string>)
    requires !Contains(trimmed, "/room/") || urlPathname(trimmed).None?
    ensures TargetRoomId(trimmed, urlPathname) == trimmed
  {
  }

  /** A pathname without a "room" segment, or whose only "room" segment
      comes first-and-last, keeps the trimmed input. */
  lemma NoRoomSegmentKept(trimmed: string, urlPathname: string -> Option<string>)
    requires urlPathname(trimmed).Some?
    requires var parts := Split(urlPathname(trimmed).value, '/');
      "room" !in parts || IndexOf(parts, "room") == |parts| - 1
    ensures TargetRoomId(trimmed, urlPathname) == trimmed
  {
  }

  /** For a link that parses, the id is the segment right after the first
      "room" segment of the pathname, whenever that segment exists. */
  lemma LinkSegmentExtracted(trimmed: string, urlPathname: string -> Option<string>, parts: seq<string>, i: nat)
    requires Contains(trimmed, "/room/")
    requires |parts| >= 1 && forall k :: 0 <= k < |parts| ==> '/' !in parts[k]
    requires urlPathname(trimmed) == Some(Join(parts, '/'))
    requires i + 1 < |parts| && parts[i] == "room" && "room" !in parts[..i]
    ensures TargetRoomId(trimmed, urlPathname) == parts[i + 1]
  {
    SplitJoin(parts, '/');
    assert IndexOf(parts, "room") == i;
  }

  /** The usual link, whose pathname is "/room/<id>" with no further slash:
      the id is that last segment. */
  lemma RoomLinkId(trimmed: string, urlPathname: string -> Option<string>, id: string)
    requires Contains(trimmed, "/room/") && '/' !in id
    requires urlPathname(trimmed) == Some("/room/" + id)
    ensures TargetRoomId(trimmed, urlPathname) == id
  {
    var parts := ["", "room", id];
    assert Join(parts, '/') == "/room/" + id by {
      assert parts[1..] == ["room", id];
      assert parts[1..][1..] == [id];
      assert Join([id], '/') == id;
      assert Join(["room", id], '/') == "room" + ['/'] + id;
      assert Join(parts, '/') == "" + ['/'] + ("room" + ['/'] + id);
      assert "" + ['/'] + ("room" + ['/'] + id) == "/room/" + id;
    }
    assert "room" !in parts[..1];
    LinkSegmentExtracted(trimmed, urlPathname, parts, 1);
  }

  /** Joining from such a link goes to "/room/<id>"; a link whose pathname
      ends in "/room/" goes to "/room/" with an empty id. */
  lemma JoinFromRoomLink(input: string, urlPathname: string -> Option<string>, id: string)
    requires var t := Trim(input, JsWhitespace);
      Contains(t, "/room/") && '/' !in id && urlPathname(t) == Some("/room/" + id)
    ensures JoinTarget(input, urlPathname) == NavigateTo("/room/" + id)
    ensures id == "" ==> JoinTarget(input, urlPathname) == NavigateTo("/room/")
  {
    var t := Trim(input, JsWhitespace);
    var i: nat :| OccursAt(t, "/room/", i);
    assert |t| >= 6;
    RoomLinkId(t, urlPathname, id);
  }

  // ---------------------------------------------------------------------
  // The page, updated in place
  // ---------------------------------------------------------------------

  class HomeView {
    var roomId: string
    var error: string

    constructor ()
      ensures roomId == "" && error == ""
    {
      roomId := "";
      error := "";
    }

    /** `joinRoom`: sets the error and stays, or returns where to navigate;
        a successful join leaves an earlier error message as it was. */
    method JoinRoom(urlPathname: string -> Option<string>) returns (destination: Option<string>)
      modifies this
      ensures roomId == old(roomId)
      ensures JoinTarget(roomId, urlPathname).ShowError? ==> destination.None? && error == EmptyInputError
      ensures JoinTarget(roomId, urlPathname).NavigateTo? ==>
        destination == Some(JoinTarget(roomId, urlPathname).path) && error == old(error)
    {
      if Trim(roomId, JsWhitespace) == "" {
        error := EmptyInputError;
        return None;
      }
      var targetRoomId := Trim(roomId, JsWhitespace);
      if Contains(targetRoomId, "/room/") {
        var pathname := urlPathname(targetRoomId);
        if pathname.Some? {
          var parts := Split(pathname.value, '/');
          var idIndex := IndexOf(parts, "room") + 1;
          if idIndex > 0 && idIndex < |parts| {
            targetRoomId := parts[idIndex];
          }
        }
      }
      destination := Some("/room/" + targetRoomId);
    }
  }
}
