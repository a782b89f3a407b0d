/** The rider's ride card: the OTP field, the pickup and destination split
    into a heading and a tail, the button row chosen by `showBtn`, and the
    links the card builds from the ride id. */
module NewRide {
  import opened Wrappers
  import opened JsRuntime

  // ---------------------------------------------------------------- OTP field

  /** The most characters the OTP field holds. */
  const OtpMaxLength := 6

  function Min(a: nat, b: nat): nat {
    if a <= b then a else b
  }

  /** The OTP state after an edit of the field: the browser keeps the field
      within six characters, and the change handler then strips every
      whitespace character, inner ones included. */
  function OtpField(typed: string): (otp: string)
    ensures |otp| <= OtpMaxLength && |otp| <= |typed|
    ensures NoWhiteSpace(otp)
  {
    RemoveWhiteSpace(typed[..Min(OtpMaxLength, |typed|)])
  }

  /** Six characters without whitespace reach the state as they were typed,
      and trimming the field's content before sending it changes nothing. */
  lemma OtpFieldKeeps(typed: string)
    ensures |typed| == OtpMaxLength && NoWhiteSpace(typed) ==> OtpField(typed) == typed
    ensures Trim(OtpField(typed)) == OtpField(typed)
  {
    TrimNoWhiteSpace(OtpField(typed));
  }

  /** The field holds exactly the non-whitespace characters among the first
      six typed. */
  lemma OtpFieldContent(typed: string, c: char)
    ensures c in OtpField(typed) <==> c in typed[..Min(OtpMaxLength, |typed|)] && !IsWhiteSpace(c)
  {
    RemoveWhiteSpaceKeeps(typed[..Min(OtpMaxLength, |typed|)], c);
  }

  /** Within the cap, what two pieces of input leave is what each leaves,
      one after the other: the typed order is kept. */
  lemma OtpFieldOrder(a: string, b: string)
    requires |a| + |b| <= OtpMaxLength
    ensures OtpField(a + b) == OtpField(a) + OtpField(b)
  {
    assert (a + b)[..|a + b|] == a + b;
    assert a[..|a|] == a && b[..|b|] == b;
    RemoveWhiteSpaceConcat(a, b);
  }

  /** A space counts against the six-character cap and is then removed, so a
      code pasted as "123 456" leaves only five digits in the field. */
  lemma OtpFieldInnerSpace()
    ensures OtpField("123 456") == "12345"
    ensures |OtpField("123 456")| < OtpMaxLength
  {
    assert "123 456"[..6] == "123 45";
    assert !IsWhiteSpace('1') && !IsWhiteSpace('2') && !IsWhiteSpace('3') && IsWhiteSpace(' ');
    assert !IsWhiteSpace('4') && !IsWhiteSpace('5');
    assert RemoveWhiteSpace("5") == "5";
    assert RemoveWhiteSpace("45") == "45";
    assert RemoveWhiteSpace(" 45") == "45";
    assert RemoveWhiteSpace("3 45") == "345";
    assert RemoveWhiteSpace("23 45") == "2345";
  }

  // ---------------------------------------------------------------- addresses

  const AddressSeparator := ", "

  /** The heading of an address: its first comma-separated segment. */
  function Heading(address: string): (h: string)
    ensures StartsWith(address, h)
    ensures !Contains(h, AddressSeparator)
  {
    SplitHead(address, AddressSeparator);
    Split(address, AddressSeparator)[0]
  }

  /** The spans the card renders for segments `i` onwards: each segment,
      followed by a separator unless it is the last one. */
  function Spans(parts: seq<string>, i: nat): string
    decreases |parts| - i
  {
    if i >= |parts| then ""
    else parts[i] + (if i < |parts| - 1 then AddressSeparator else "") + Spans(parts, i + 1)
  }

  /** The tail of an address: every segment but the first, as rendered. An
      address without a separator has an empty tail. */
  function Tail(address: string): (t: string)
    ensures !Contains(address, AddressSeparator) ==> t == ""
  {
    SplitMany(address, AddressSeparator);
    Spans(Split(address, AddressSeparator), 1)
  }

  /** The rendered spans are the segments joined by the separator, with none
      after the last one. */
  lemma {:induction false} SpansJoin(parts: seq<string>, i: nat)
    requires i <= |parts|
    ensures Spans(parts, i) == Join(parts[i..], AddressSeparator)
    decreases |parts| - i
  {
    if i < |parts| {
      SpansJoin(parts, i + 1);
      assert parts[i..][1..] == parts[i + 1..];
      if i == |parts| - 1 {
        assert parts[i..] == [parts[i]];
      }
    }
  }

  /** The tail shows segments 1 to n-1 in order, separated by ", ". */
  lemma TailIsJoin(address: string)
    ensures Tail(address) == Join(Split(address, AddressSeparator)[1..], AddressSeparator)
  {
    SpansJoin(Split(address, AddressSeparator), 1);
  }

  /** An address with a separator is its heading, a separator and its tail;
      one without is all heading and no tail. */
  lemma HeadingAndTail(address: string)
    ensures Contains(address, AddressSeparator) ==> Heading(address) + AddressSeparator + Tail(address) == address
    ensures !Contains(address, AddressSeparator) ==> Heading(address) == address && Tail(address) == ""
  {
    var parts := Split(address, AddressSeparator);
    SplitMany(address, AddressSeparator);
    JoinSplit(address, AddressSeparator);
    TailIsJoin(address);
    if |parts| == 1 {
      assert parts[1..] == [];
    }
  }

  // ---------------------------------------------------------------- buttons

  /** What the bottom of the card offers. */
  datatype Buttons = IgnoreAndAccept | OtpEntry | EndRideButton

  /** "accept" offers Ignore and Accept, "otp" the code field and Verify, and
      any other value the End ride button. */
  function ButtonMode(showBtn: string): (b: Buttons)
    ensures b == IgnoreAndAccept <==> showBtn == "accept"
    ensures b == OtpEntry <==> showBtn == "otp"
    ensures b == EndRideButton <==> showBtn != "accept" && showBtn != "otp"
    ensures ShowsContactRow(showBtn) <==> b != IgnoreAndAccept
  {
    if showBtn == "accept" then IgnoreAndAccept
    else if showBtn == "otp" then OtpEntry
    else EndRideButton
  }

  /** Whether the chat, share and call row is shown: once the ride has been
      taken on, that is whenever the buttons are not Ignore and Accept. */
  predicate ShowsContactRow(showBtn: string) {
    showBtn != "accept"
  }

  // ---------------------------------------------------------------- links

  const SharePath := "/ride/share/"

  /** The live-tracking link the rider shares. */
  function ShareLink(origin: string, rideId: string): (link: string)
    ensures StartsWith(link, origin + SharePath)
    ensures |link| == |origin| + |SharePath| + |rideId|
  {
    origin + SharePath + rideId
  }

  /** A character that may appear in one path segment: `/` ends the segment,
      `?` starts the query and `#` the fragment. */
  predicate SegmentChar(c: char) {
    c != '/' && c != '?' && c != '#'
  }

  /** The length of the path segment that starts `s`. */
  function SegmentEnd(s: string): (k: nat)
    ensures k <= |s|
    ensures forall i :: 0 <= i < k ==> SegmentChar(s[i])
    ensures k < |s| ==> !SegmentChar(s[k])
  {
    if s == [] || !SegmentChar(s[0]) then 0 else 1 + SegmentEnd(s[1..])
  }

  /** What the route `/ride/share/:rideId` lets follow its one segment:
      any number of trailing `/`, then nothing, the query or the fragment. */
  predicate RouteRest(r: string)
    decreases |r|
  {
    r == [] || r[0] == '?' || r[0] == '#' || (r[0] == '/' && RouteRest(r[1..]))
  }

  /** The `:rideId` parameter the tracking page reads from a link of this
      origin: the one non-empty path segment after the share path, when the
      route matches. */
  function SharedRideId(origin: string, link: string): (id: Option<string>)
    ensures !StartsWith(link, origin + SharePath) ==> id.None?
    ensures id.Some? ==> id.value != [] && (forall i :: 0 <= i < |id.value| ==> SegmentChar(id.value[i]))
                         && StartsWith(link, origin + SharePath + id.value)
                         && RouteRest(link[|origin + SharePath + id.value|..])
  {
    var prefix := origin + SharePath;
    if StartsWith(link, prefix) then
      var rest := link[|prefix|..];
      var k := SegmentEnd(rest);
      if k > 0 && RouteRest(rest[k..]) then
        assert link[..|prefix| + k] == prefix + rest[..k];
        Some(rest[..k])
      else None
    else None
  }

  /** The segment of an id followed by a route-compatible rest is that id. */
  lemma {:induction false} SegmentEndOf(rideId: string, rest: string)
    requires forall i :: 0 <= i < |rideId| ==> SegmentChar(rideId[i])
    requires rest == [] || !SegmentChar(rest[0])
    ensures SegmentEnd(rideId + rest) == |rideId|
  {
    if rideId != [] {
      assert (rideId + rest)[1..] == rideId[1..] + rest;
      SegmentEndOf(rideId[1..], rest);
    }
  }

  /** Any link the route matches for an id, with a query, a fragment or a
      run of trailing `/` after it, gives that id back. */
  lemma SharedRideIdOf(origin: string, rideId: string, rest: string)
    requires rideId != [] && forall i :: 0 <= i < |rideId| ==> SegmentChar(rideId[i])
    requires RouteRest(rest)
    ensures SharedRideId(origin, origin + SharePath + rideId + rest) == Some(rideId)
  {
    var prefix := origin + SharePath;
    var link := prefix + rideId + rest;
    assert link[..|prefix|] == prefix;
    assert link[|prefix|..] == rideId + rest;
    SegmentEndOf(rideId, rest);
    assert (rideId + rest)[..|rideId|] == rideId;
    assert (rideId + rest)[|rideId|..] == rest;
  }

  /** The share link carries the ride id, which the tracking page reads
      back; store ids are 24 hexadecimal digits, so they form one segment. */
  lemma ShareLinkRoundTrip(origin: string, rideId: string)
    requires rideId != [] && forall i :: 0 <= i < |rideId| ==> SegmentChar(rideId[i])
    ensures SharedRideId(origin, ShareLink(origin, rideId)) == Some(rideId)
  {
    SharedRideIdOf(origin, rideId, []);
    assert origin + SharePath + rideId + [] == ShareLink(origin, rideId);
  }

  /** A query after the id is not part of it, trailing slashes are ignored,
      and a link with no segment after the share path matches no route. */
  lemma SharedRideIdExamples()
    ensures SharedRideId("https://h", "https://h/ride/share/abc?x=1") == Some("abc")
    ensures SharedRideId("https://h", "https://h/ride/share/abc//") == Some("abc")
    ensures SharedRideId("https://h", "https://h/ride/share/") == None
  {
    SharedRideIdOf("https://h", "abc", "?x=1");
    assert "https://h" + SharePath + "abc" + "?x=1" == "https://h/ride/share/abc?x=1";
    assert RouteRest("//") by { assert "//"[1..] == "/"; assert "/"[1..] == []; }
    SharedRideIdOf("https://h", "abc", "//");
    assert "https://h" + SharePath + "abc" + "//" == "https://h/ride/share/abc//";
    var link := "https://h/ride/share/";
    assert link[|"https://h" + SharePath|..] == [];
  }
}
