/** The binary DATA frame: one length byte, the session id, one flags byte, the payload. */
module DataFrame {
  import opened Protocol

  datatype Parsed = Parsed(sessionId: SessionId, flags: byte, payload: Bytes)

  /** The wire layout of a frame. */
  function Layout(d: Parsed): Bytes
    requires 1 <= |d.sessionId| <= 255
  {
    [|d.sessionId| as char] + d.sessionId + [d.flags] + d.payload
  }

  method BuildDataFrame(sessionId: SessionId, flags: byte, payload: Bytes) returns (r: Result<Bytes>)
    ensures r.Ok? <==> 1 <= |sessionId| <= 255
    ensures r.Ok? ==> r.value == Layout(Parsed(sessionId, flags, payload))
  {
    if |sessionId| == 0 {
      return Err;
    }
    if |sessionId| > 255 {
      return Err;
    }
    var frame: Bytes := [];
    frame := frame + [|sessionId| as char];
    frame := frame + sessionId;
    frame := frame + [flags];
    frame := frame + payload;
    return Ok(frame);
  }

  function ParseDataFrame(frame: Bytes): (r: Result<Parsed>)
    ensures r.Ok? ==> 1 <= |r.value.sessionId| <= 255
  {
    if |frame| < 3 then Err
    else
      var sidLen := frame[0] as int;
      if sidLen == 0 then Err
      else if |frame| < 1 + sidLen + 1 then Err
      else Ok(Parsed(frame[1..1 + sidLen], frame[1 + sidLen], frame[1 + sidLen + 1..]))
  }

  /** Parsing undoes building, for every id of 1 to 255 bytes. */
  lemma ParseAfterBuild(d: Parsed)
    requires 1 <= |d.sessionId| <= 255
    ensures ParseDataFrame(Layout(d)) == Ok(d)
  {
    var frame := Layout(d);
    var n := |d.sessionId|;
    assert frame[0] as int == n;
    assert frame[1..1 + n] == d.sessionId;
    assert frame[1 + n] == d.flags;
    assert frame[1 + n + 1..] == d.payload;
  }

  /** Rebuilding what was parsed gives the very same bytes. */
  lemma BuildAfterParse(frame: Bytes)
    requires ParseDataFrame(frame).Ok?
    ensures Layout(ParseDataFrame(frame).value) == frame
  {
  }

  /** A byte string parses exactly when it is the layout of some triple, and then of only one. */
  lemma ParsesIffBuilt(frame: Bytes)
    ensures ParseDataFrame(frame).Ok? <==>
            exists d: Parsed :: 1 <= |d.sessionId| <= 255 && Layout(d) == frame
    ensures forall d: Parsed :: 1 <= |d.sessionId| <= 255 && Layout(d) == frame ==>
                                  ParseDataFrame(frame) == Ok(d)
  {
    if ParseDataFrame(frame).Ok? {
      BuildAfterParse(frame);
    }
    forall d: Parsed | 1 <= |d.sessionId| <= 255 && Layout(d) == frame
      ensures ParseDataFrame(frame) == Ok(d)
    {
      ParseAfterBuild(d);
    }
  }
}
